/**
 Nothing is lost in the past. In a sound state every timer, expiry, pending delay, internal
 event and delay-shifted trace packet is at or after the current time, and every packet
 waiting for the tunnel at or before it. Soundness survives every round of the scheduler, so
 time never moves backwards and no panic is reached.
 */
module Timing {
  import opened Prelude
  import opened Machines
  import opened SimEvents
  import opened Queues
  import opened SimState
  import opened Selector
  import opened Scheduler

  predicate Schedulable(a: TriggerAction) {
    a.TASendPadding? || a.TABlockOutgoing?
  }

  ghost predicate ActionsFrom(ep: Endpoint, t: int) {
    forall i :: 0 <= i < |ep.actions| && ep.actions[i].Some? ==>
      t <= ep.actions[i].value.time && Schedulable(ep.actions[i].value.action)
  }

  ghost predicate TimersFrom(ep: Endpoint, t: int) {
    forall i :: 0 <= i < |ep.timers| && ep.timers[i].Some? ==> t <= ep.timers[i].value
  }

  predicate UntilFrom(ep: Endpoint, t: int) {
    ep.until.Some? ==> t <= ep.until.value
  }

  /** Trace packets, once shifted, and internal events are due at t or later. */
  ghost predicate EventsFrom(ep: Endpoint, t: int) {
    && (forall e :: e in ep.queue.base.items ==> t <= e.time + ep.sum)
    && (forall e :: e in ep.queue.internal.items ==> t <= e.time)
  }

  /** Packets waiting for the tunnel were sent at t or earlier. */
  ghost predicate PacketsBy(ep: Endpoint, t: int) {
    && (forall e :: e in ep.queue.blocking.items ==> e.time <= t)
    && (forall e :: e in ep.queue.bypassable.items ==> e.time <= t)
  }

  ghost predicate DelaysFrom(s: Sim, t: int) {
    forall d :: d in s.pending.items ==> t <= d.time
  }

  ghost predicate SoundSide(ep: Endpoint, client: bool, t: int) {
    && Typed(ep.queue, client)
    && ActionsFrom(ep, t) && TimersFrom(ep, t) && UntilFrom(ep, t)
    && EventsFrom(ep, t) && PacketsBy(ep, t)
  }

  ghost predicate Sound(s: Sim, t: int) {
    SoundSide(s.client, true, t) && SoundSide(s.server, false, t) && DelaysFrom(s, t)
  }

  // ---------- Adding an event ----------

  /** An event that may be queued at time t. */
  predicate Timely(e: SimEvent, t: int) {
    match Home(e)
    case Base => false
    case Internal => t <= e.time
    case Blocking => e.time <= t
    case Bypassable => e.time <= t
  }

  lemma EnqueueSound(ep: Endpoint, client: bool, t: int, e: SimEvent)
    requires SoundSide(ep, client, t) && Timely(e, t) && e.client == client
    ensures SoundSide(ep.(queue := Enqueue(ep.queue, e)), client, t)
  {
    var h := Select(ep.queue, Home(e));
    assert forall x :: x in Push(h, e).items <==> x in h.items || x == e;
  }

  lemma PutSound(s: Sim, t: int, client: bool, ep: Endpoint)
    requires Sound(s, t) && SoundSide(ep, client, t)
    ensures Sound(Put(s, client, ep), t)
  {
    hide SoundSide;
  }

  lemma PushSound(s: Sim, t: int, e: SimEvent)
    requires Sound(s, t) && Timely(e, t)
    ensures Sound(PushEvent(s, e), t)
  {
    hide SoundSide, Enqueue;
    EnqueueSound(At(s, e.client), e.client, t, e);
  }

  lemma PushDelaySound(s: Sim, t: int, delay: nat, from: int, client: bool)
    requires Sound(s, t) && t <= from
    ensures Sound(PushDelay(s, delay, from, client), t)
  {
    hide SoundSide;
    var d := s.net.delay;
    var s1 := PushPending(s, PendingDelay(from + (if client then Rest(4 * d, delay) else Rest(d, delay)), delay, true));
    assert DelaysFrom(s1, t);
  }

  lemma PopDelaySound(s: Sim, t: int)
    requires Sound(s, t) && s.pending.items != []
    ensures Sound(PopDelay(s), t)
  {
  }

  // ---------- The waits are bounds ----------

  /** Everything is due at t or later, whatever the current time. */
  ghost predicate DueFrom(s: Sim, t: int) {
    && ActionsFrom(s.client, t) && ActionsFrom(s.server, t)
    && TimersFrom(s.client, t) && TimersFrom(s.server, t)
    && UntilFrom(s.client, t) && UntilFrom(s.server, t)
    && EventsFrom(s.client, t) && EventsFrom(s.server, t)
    && DelaysFrom(s, t)
  }

  lemma {:induction false} SoonestBound(times: seq<Option<int>>, k: nat, now: int, best: Wait)
    requires k <= |times|
    requires forall i :: 0 <= i < |times| && times[i].Some? ==> now <= times[i].value
    ensures AtMost(Soonest(times, k, now, best), best)
    ensures forall i :: k <= i < |times| && times[i].Some? ==>
              AtMost(Soonest(times, k, now, best), In(times[i].value - now))
    decreases |times| - k
  {
    if k < |times| {
      SoonestBound(times, k + 1, now, Sharpen(times[k], now, best));
    }
  }

  /** The wait found is that of some entry, or the one started from. */
  lemma {:induction false} SoonestFound(times: seq<Option<int>>, k: nat, now: int, best: Wait)
    requires k <= |times|
    ensures var w := Soonest(times, k, now, best);
            w == best || (w.In? && exists i :: k <= i < |times| && times[i] == Some(now + w.ns))
    decreases |times| - k
  {
    if k < |times| {
      SoonestFound(times, k + 1, now, Sharpen(times[k], now, best));
    }
  }

  lemma TimersBound(s: Sim, now: int, d: nat)
    requires TimersFrom(s.client, now) && TimersFrom(s.server, now) && AtMost(In(d), SoonestTimer(s, now))
    ensures TimersFrom(s.client, now + d) && TimersFrom(s.server, now + d)
  {
    SoonestBound(s.client.timers, 0, now, Never);
    SoonestBound(s.server.timers, 0, now, Soonest(s.client.timers, 0, now, Never));
  }

  lemma ActionsBound(s: Sim, now: int, d: nat)
    requires ActionsFrom(s.client, now) && ActionsFrom(s.server, now) && AtMost(In(d), SoonestAction(s, now))
    ensures ActionsFrom(s.client, now + d) && ActionsFrom(s.server, now + d)
  {
    var c, v := DueTimes(s.client.actions), DueTimes(s.server.actions);
    SoonestBound(c, 0, now, Never);
    SoonestBound(v, 0, now, Soonest(c, 0, now, Never));
    assert forall i :: 0 <= i < |s.client.actions| && s.client.actions[i].Some? ==>
        c[i] == Some(s.client.actions[i].value.time);
    assert forall i :: 0 <= i < |s.server.actions| && s.server.actions[i].Some? ==>
        v[i] == Some(s.server.actions[i].value.time);
  }

  lemma UntilBound(s: Sim, now: int, d: nat)
    requires UntilFrom(s.client, now) && UntilFrom(s.server, now) && AtMost(In(d), SoonestUnblock(s, now).0)
    ensures UntilFrom(s.client, now + d) && UntilFrom(s.server, now + d)
  {
  }

  lemma DelaysBound(s: Sim, now: int, d: nat)
    requires DelaysFrom(s, now) && AtMost(In(d), WaitForDelay(s, now))
    ensures DelaysFrom(s, now + d)
  {
    if s.pending.items != [] {
      var k := SoonestDelay(s.pending);
      assert s.pending.items[k] in s.pending.items;
      forall x | x in s.pending.items
        ensures now + d <= x.time
      {
        var i :| 0 <= i < |s.pending.items| && s.pending.items[i] == x;
      }
    }
  }

  lemma QueueBound(s: Sim, now: int, earliest: Wait, d: nat)
    requires Sound(s, now) && AtMost(In(d), earliest) && AtMost(In(d), PeekQueue(s, earliest, now).wait)
    ensures EventsFrom(s.client, now + d) && EventsFrom(s.server, now + d)
  {
    SelectorRefinesMinimum(s, earliest, now);
    hide PeekQueue, Typed, Names, Overtaken, Searches;
    var p := PeekQueue(s, earliest, now);
    if p.wait.In? {
      EventsBound(s.client, now, p.wait.ns, d);
      EventsBound(s.server, now, p.wait.ns, d);
    } else if Size(s.client.queue) + Size(s.server.queue) > 0 {
      EventsBound(s.client, now, earliest.ns + 1, d);
      EventsBound(s.server, now, earliest.ns + 1, d);
    }
  }

  lemma EventsBound(ep: Endpoint, now: int, d': nat, d: nat)
    requires EventsFrom(ep, now) && d <= d'
    requires NoneSooner(ep, Base, now, d') && NoneSooner(ep, Internal, now, d')
    ensures EventsFrom(ep, now + d)
  {
    forall e | e in ep.queue.base.items
      ensures now + d <= e.time + ep.sum
    {
      assert d' <= WaitOf(ep, Base, e, now);
    }
    forall e | e in ep.queue.internal.items
      ensures now + d <= e.time
    {
      assert d' <= WaitOf(ep, Internal, e, now);
    }
  }

  /** If nothing in a round waits less than d, everything is due at now + d or later. */
  lemma AllBound(s: Sim, now: int, d: nat)
    requires Sound(s, now)
    requires var w := WaitsAt(s, now);
             AtMost(In(d), w.action) && AtMost(In(d), w.timer) && AtMost(In(d), w.unblock)
             && AtMost(In(d), w.delay) && AtMost(In(d), w.queue.wait)
    ensures DueFrom(s, now + d)
  {
    ActionsBound(s, now, d);
    TimersBound(s, now, d);
    UntilBound(s, now, d);
    DelaysBound(s, now, d);
    var w := WaitsAt(s, now);
    QueueBound(s, now, Least(Least(Least(w.action, w.timer), w.unblock), w.delay), d);
  }

  /** A sound state stays sound when time moves on and nothing becomes overdue. */
  lemma TimePasses(s: Sim, now: int, t: int)
    requires Sound(s, now) && now <= t && DueFrom(s, t)
    ensures Sound(s, t)
  {
  }

  // ---------- The branches of a round ----------

  /** What is left to do: nothing queued, no timer, no blocking. Pending delays do not count. */
  predicate Quiescent(s: Sim) {
    && Size(s.client.queue) + Size(s.server.queue) == 0
    && Timers(s) == 0 && Blockings(s) == 0
  }

  /** A packet of a blocking endpoint bypasses a blocking that may be bypassed. */
  predicate FailsClosed(s: Sim, e: SimEvent) {
    e.event == TETunnelSent && At(s, e.client).until.Some? ==> At(s, e.client).bypassable && e.bypass
  }

  /** A yielded event lies at or after now, leaves a sound state at its time, and fails closed. */
  ghost predicate Sane(s: Sim, e: SimEvent, now: int) {
    now <= e.time && Sound(s, e.time) && FailsClosed(s, e)
  }

  /** A round in state s does not panic, yields only sane events, and ends only when nothing is left. */
  ghost predicate RoundSane(r: Round, s: Sim, now: int) {
    && !r.Panic?
    && (r.Yield? ==> Sane(r.sim, r.event, now))
    && (r.Again? ==> Sound(r.sim, now))
    && (r.Nothing? ==> Quiescent(s))
  }

  lemma LagSound(s: Sim, t: int)
    requires Sound(s, t)
    ensures Sound(Lag(s).1, t)
  {
    hide SoundSide;
  }

  lemma UnblockSound(s: Sim, t: int, expire: int, client: bool)
    requires Sound(s, t) && t <= expire
    ensures Sound(Unblock(s, expire, client), t)
  {
    var ep := At(s, client).(until := None);
    assert SoundSide(ep, client, t);
    hide SoundSide, PushDelay, Put, ExpiryDelay;
    PutSound(s, t, client, ep);
    hide Sound;
    var delay := ExpiryDelay(ep, expire);
    if delay.Some? {
      PushDelaySound(Put(s, client, ep), t, delay.value, expire, client);
    }
  }

  lemma EndBlockingSound(s: Sim, t: int, expire: int, client: bool)
    requires Sound(s, t) && t <= expire
    ensures var r := EndBlocking(s, expire, client);
            && (r.Yield? || r.Again?) && Sound(r.sim, t)
            && (r.Yield? ==> r.event.time == expire && r.event.event == TEBlockingEnd)
  {
    hide Sound, Unblock, PushEvent;
    LagSound(s, t);
    var (lag, s1) := Lag(s);
    UnblockSound(s1, t, expire, client);
    if lag > 0 {
      var end := SimEvent(TEBlockingEnd, expire + lag, lag, client, false, false, false);
      PushSound(Unblock(s1, expire, client), t, end);
    }
  }

  lemma FireTimerAtSound(s: Sim, t: int, client: bool, machine: nat, target: int)
    requires Sound(s, t) && machine < |At(s, client).timers| && t <= target
    ensures Sound(FireTimerAt(s, client, machine, target), t)
  {
    var ep := At(s, client);
    var s1 := Put(s, client, ep.(timers := ep.timers[machine := None]));
    assert Sound(s1, t);
    hide SoundSide, PushEvent;
    PushSound(s1, t, TimerEnded(machine, target, client));
  }

  lemma FireTimerSound(s: Sim, t: int)
    requires Sound(s, t) && SoonestTimer(s, t).In?
    ensures FireTimer(s, t + SoonestTimer(s, t).ns).Again?
    ensures Sound(FireTimer(s, t + SoonestTimer(s, t).ns).sim, t)
  {
    hide Sound, FireTimerAt;
    var target := t + SoonestTimer(s, t).ns;
    SoonestFound(s.client.timers, 0, t, Never);
    SoonestFound(s.server.timers, 0, t, Soonest(s.client.timers, 0, t, Never));
    var c := IndexOf(s.client.timers, 0, target);
    var v := IndexOf(s.server.timers, 0, target);
    if c.Some? {
      FireTimerAtSound(s, t, true, c.value, target);
    } else if v.Some? {
      FireTimerAtSound(s, t, false, v.value, target);
    }
  }

  lemma FireActionAtSound(s: Sim, t: int, client: bool, machine: nat)
    requires Sound(s, t) && machine < |At(s, client).actions| && At(s, client).actions[machine].Some?
    ensures FireActionAt(s, client, machine).Again?
    ensures Sound(FireActionAt(s, client, machine).sim, t)
  {
    var ep := At(s, client);
    var a := ep.actions[machine].value;
    var cleared := ep.(actions := ep.actions[machine := None]);
    assert SoundSide(cleared, client, t) && t <= a.time && Schedulable(a.action);
    hide SoundSide;
    PutSound(s, t, client, cleared);
    PerformSound(Put(s, client, cleared), t, client, a);
    hide Perform, Sound;
  }

  lemma BlockSound(ep: Endpoint, client: bool, t: int, time: int, duration: nat, bypass: bool, replace: bool)
    requires SoundSide(ep, client, t) && t <= time
    ensures SoundSide(Block(ep, time, duration, bypass, replace), client, t)
  {
  }

  lemma PerformSound(s: Sim, t: int, client: bool, a: Scheduled)
    requires Sound(s, t) && t <= a.time && Schedulable(a.action)
    ensures Perform(s, client, a).Again? && Sound(Perform(s, client, a).sim, t)
  {
    hide Sound, PushEvent, Block, Put, At, Lag;
    LagSound(s, t);
    var (lag1, s1) := Lag(s);
    match a.action
    case TASendPadding(i, _, bypass, replace) =>
      PushSound(s1, t, SimEvent(TEPaddingSent(i), a.time, lag1, client, true, bypass, replace));
    case TABlockOutgoing(i, _, duration, bypass, replace) =>
      LagSound(s1, t);
      var (lag2, s2) := Lag(s1);
      var ep := Block(At(s2, client), a.time, duration, bypass, replace);
      PutBlocked(s2, t, client, a.time, duration, bypass, replace);
      PushSound(Put(s2, client, ep), t,
                SimEvent(TEBlockingBegin(i), a.time + lag1 + lag2, lag1 + lag2, client, false, ep.bypassable, false));
    case _ =>
  }

  lemma PutBlocked(s: Sim, t: int, client: bool, time: int, duration: nat, bypass: bool, replace: bool)
    requires Sound(s, t) && t <= time
    ensures Sound(Put(s, client, Block(At(s, client), time, duration, bypass, replace)), t)
  {
    hide SoundSide, Block;
    BlockSound(At(s, client), client, t, time, duration, bypass, replace);
    PutSound(s, t, client, Block(At(s, client), time, duration, bypass, replace));
  }

  lemma FireActionSound(s: Sim, t: int)
    requires Sound(s, t) && SoonestAction(s, t).In?
    ensures FireAction(s, t + SoonestAction(s, t).ns).Again?
    ensures Sound(FireAction(s, t + SoonestAction(s, t).ns).sim, t)
  {
    hide Sound, FireActionAt;
    var target := t + SoonestAction(s, t).ns;
    var dc, dv := DueTimes(s.client.actions), DueTimes(s.server.actions);
    SoonestFound(dc, 0, t, Never);
    SoonestFound(dv, 0, t, Soonest(dc, 0, t, Never));
    var c := IndexOf(dc, 0, target);
    var v := IndexOf(dv, 0, target);
    if c.Some? {
      FireActionAtSound(s, t, true, c.value);
    } else if v.Some? {
      FireActionAtSound(s, t, false, v.value);
    }
  }

  lemma DequeueSound(ep: Endpoint, client: bool, t: int, id: Queue)
    requires SoundSide(ep, client, t) && Select(ep.queue, id).items != []
    ensures SoundSide(ep.(queue := Dequeue(ep.queue, id, ep.sum).0), client, t)
  {
    PopRemovesPeek(Select(ep.queue, id));
    hide Pop;
  }

  /**
   Taking the picked event: it exists, comes out at exactly now plus its wait, and the rest
   is sound at that time. A packet leaves a blocking endpoint only by bypassing a bypassable
   blocking, provided the blocking lasts longer than the wait.
   */
  lemma TakeQueuedSound(s: Sim, now: int, p: Pick)
    requires Sound(s, now) && p.wait.In? && Sound(s, now + p.wait.ns) && Selector.Names(s, p, now)
    requires At(s, p.client).until.Some? ==> now + p.wait.ns < At(s, p.client).until.value
    ensures var r := TakeQueued(s, p, now);
            && r.Yield? && Sound(r.sim, now + p.wait.ns)
            && r.event.time == now + p.wait.ns && r.event.client == p.client
            && FailsClosed(r.sim, r.event)
  {
    hide *;
    TakeShape(s, p, now);
    var ep := At(s, p.client);
    var t := now + p.wait.ns;
    SideOf(s, p.client, now);
    SideOf(s, p.client, t);
    DequeueSound(ep, p.client, t, p.queue);
    TopTimely(ep, p.client, now, p.queue);
    TakenTime(ep, p.queue, now, p.wait.ns);
    var (queue, e) := Dequeue(ep.queue, p.queue, ep.sum);
    PutSound(s, t, p.client, ep.(queue := queue));
    PutFailsClosed(s, ep.(queue := queue), e.(time := t));
  }

  lemma TakeShape(s: Sim, p: Pick, now: int)
    requires p.wait.In? && Selector.Names(s, p, now)
    ensures var ep := At(s, p.client);
            && Select(ep.queue, p.queue).items != []
            && WaitOf(ep, p.queue, Peek(Select(ep.queue, p.queue)).value, now) == p.wait.ns
            && var (queue, e) := Dequeue(ep.queue, p.queue, ep.sum);
               TakeQueued(s, p, now) ==
                 Yield(Put(s, p.client, ep.(queue := queue)), e.(time := Max(e.time, now + p.wait.ns)))
  {
    hide Dequeue, WaitOf, At, Put, Select, Peek;
  }

  lemma PutFailsClosed(s: Sim, ep: Endpoint, e: SimEvent)
    requires e.event == TETunnelSent && ep.until.Some? ==> ep.bypassable && e.bypass
    ensures FailsClosed(Put(s, e.client, ep), e)
  {
  }

  lemma SideOf(s: Sim, client: bool, t: int)
    requires Sound(s, t)
    ensures SoundSide(At(s, client), client, t)
  {
  }

  /** A top with wait d comes out at now + d, and not past a blocking that lasts longer. */
  lemma TakenTime(ep: Endpoint, id: Queue, now: int, d: nat)
    requires Select(ep.queue, id).items != []
    requires var e := Peek(Select(ep.queue, id)).value;
             && WaitOf(ep, id, e, now) == d && Home(e) == id
             && match id
                case Base => now <= e.time + ep.sum
                case Internal => now <= e.time
                case Blocking => e.time <= now
                case Bypassable => e.time <= now
    requires ep.until.Some? ==> now + d < ep.until.value
    ensures var e := Dequeue(ep.queue, id, ep.sum).1;
            && e.client == Peek(Select(ep.queue, id)).value.client
            && Max(e.time, now + d) == now + d
            && (e.event == TETunnelSent && ep.until.Some? ==> ep.bypassable && e.bypass)
  {
    hide Peek, Pop;
  }

  /** The top of a heap, as seen at the current time. */
  lemma TopTimely(ep: Endpoint, client: bool, now: int, id: Queue)
    requires SoundSide(ep, client, now) && Select(ep.queue, id).items != []
    ensures var e := Peek(Select(ep.queue, id)).value;
            && e.client == client && Home(e) == id
            && match id
               case Base => now <= e.time + ep.sum
               case Internal => now <= e.time
               case Blocking => e.time <= now
               case Bypassable => e.time <= now
  {
    assert Peek(Select(ep.queue, id)).value in Select(ep.queue, id).items;
  }

  /** The next end of blocking is where the wait says, and no endpoint unblocks before. */
  lemma UntilExact(s: Sim, now: int)
    requires UntilFrom(s.client, now) && UntilFrom(s.server, now)
    ensures var (w, client) := SoonestUnblock(s, now);
            && (w.In? ==> At(s, client).until == Some(now + w.ns))
            && (forall c :: At(s, c).until.Some? ==> AtMost(w, In(At(s, c).until.value - now)))
            && (w.Never? ==> Blockings(s) == 0)
  {
  }

  lemma {:induction false} NoneArmed<T>(xs: seq<Option<T>>)
    requires forall i :: 0 <= i < |xs| ==> xs[i].None?
    ensures Armed(xs) == 0
  {
    if xs != [] {
      NoneArmed(xs[..|xs| - 1]);
    }
  }

  lemma NoTimers(s: Sim, now: int)
    requires Sound(s, now) && SoonestAction(s, now).Never? && SoonestTimer(s, now).Never?
    ensures Timers(s) == 0
  {
    var c, v := DueTimes(s.client.actions), DueTimes(s.server.actions);
    SoonestBound(c, 0, now, Never);
    SoonestBound(v, 0, now, Soonest(c, 0, now, Never));
    SoonestBound(s.client.timers, 0, now, Never);
    SoonestBound(s.server.timers, 0, now, Soonest(s.client.timers, 0, now, Never));
    forall i | 0 <= i < |s.client.actions|
      ensures s.client.actions[i].None?
    {
      assert c[i].None?;
    }
    forall i | 0 <= i < |s.server.actions|
      ensures s.server.actions[i].None?
    {
      assert v[i].None?;
    }
    NoneArmed(s.client.actions);
    NoneArmed(s.server.actions);
    NoneArmed(s.client.timers);
    NoneArmed(s.server.timers);
  }

  // ---------- A round, and the scheduler ----------

  /** Time moves on to the chosen wait without losing anything. */
  lemma ChosenTime(s: Sim, now: int)
    requires Sound(s, now) && Chosen(WaitsAt(s, now)).In?
    ensures Sound(s, now + Chosen(WaitsAt(s, now)).ns)
  {
    hide *;
    var w := WaitsAt(s, now);
    ChosenIsLeast(w);
    AllBound(s, now, Chosen(w).ns);
    TimePasses(s, now, now + Chosen(w).ns);
  }

  lemma YieldSane(r: Round, s: Sim, now: int)
    requires r.Again? ==> Sound(r.sim, now)
    requires r.Yield? ==> now <= r.event.time && FailsClosed(r.sim, r.event) && Sound(r.sim, r.event.time)
    requires r.Again? || r.Yield?
    ensures RoundSane(r, s, now)
  {
    hide Sound, FailsClosed;
  }

  lemma EndFailsClosed(s: Sim, e: SimEvent)
    requires e.event == TEBlockingEnd
    ensures FailsClosed(s, e)
  {
  }

  lemma ExpirySound(s: Sim, now: int, d: nat, client: bool)
    requires Sound(s, now) && Sound(s, now + d)
    ensures RoundSane(EndBlocking(s, now + d, client), s, now)
  {
    hide *;
    var r := EndBlocking(s, now + d, client);
    EndBlockingSound(s, now, now + d, client);
    EndBlockingSound(s, now + d, now + d, client);
    if r.Yield? {
      EndFailsClosed(r.sim, r.event);
    }
    YieldSane(r, s, now);
  }

  /** If an event is taken, its endpoint's blocking, if any, ends strictly later. */
  lemma UntilLater(s: Sim, now: int, d: nat, client: bool)
    requires Sound(s, now) && !AtMost(SoonestUnblock(s, now).0, In(d))
    ensures At(s, client).until.Some? ==> now + d < At(s, client).until.value
  {
    UntilExact(s, now);
  }

  lemma QueueNamed(s: Sim, now: int)
    requires Sound(s, now) && WaitsAt(s, now).queue.wait.In?
    ensures Selector.Names(s, WaitsAt(s, now).queue, now)
    ensures WaitsAt(s, now).unblock == SoonestUnblock(s, now).0
  {
    var w := WaitsAt(s, now);
    assert TypedSim(s);
    hide PeekQueue, Selector.Names, SoonestUnblock, SoonestTimer, SoonestAction, WaitForDelay, TypedSim, Sound;
    SelectorRefinesMinimum(s, Least(Least(Least(w.action, w.timer), w.unblock), w.delay), now);
  }

  lemma TakeSound(s: Sim, now: int)
    requires Sound(s, now) && Choose(WaitsAt(s, now)).TakeEvent?
    ensures WaitsAt(s, now).queue.wait.In?
    ensures RoundSane(TakeQueued(s, WaitsAt(s, now).queue, now), s, now)
  {
    hide *;
    var w := WaitsAt(s, now);
    ChosenIsLeast(w);
    ChosenTime(s, now);
    QueueNamed(s, now);
    UntilLater(s, now, w.queue.wait.ns, w.queue.client);
    TakeQueuedSound(s, now, w.queue);
    YieldSane(TakeQueued(s, w.queue, now), s, now);
  }

  /** With no wait at all there is nothing left. */
  lemma NothingSound(s: Sim, now: int)
    requires Sound(s, now) && Choose(WaitsAt(s, now)).NoChoice?
    ensures Quiescent(s)
  {
    NoTimers(s, now);
    UntilExact(s, now);
    assert TypedSim(s);
    SelectorRefinesMinimum(s, Never, now);
    hide PeekQueue, Sound, SoonestUnblock;
  }

  lemma WaitsParts(s: Sim, now: int)
    ensures WaitsAt(s, now).timer == SoonestTimer(s, now) && WaitsAt(s, now).action == SoonestAction(s, now)
  {
    hide PeekQueue, SoonestTimer, SoonestAction;
  }

  /** A round of a sound state never panics; it yields a sane event or goes on in a sound state. */
  lemma ActSound(s: Sim, now: int)
    requires Sound(s, now)
    ensures RoundSane(Advance(s, now), s, now)
  {
    var w := WaitsAt(s, now);
    WaitsParts(s, now);
    hide WaitsAt, Sound, SoonestTimer, SoonestAction, Quiescent, Sane, EndBlocking, TakeQueued, FireTimer, FireAction,
         PopDelay, RoundSane, Choose, Chosen, AtMost;
    ChosenIsLeast(w);
    match Choose(w)
    case NoChoice =>
      NothingSound(s, now);
      NothingSane(s, now);
    case TakeDelay =>
      PopDelaySound(s, now);
      YieldSane(Again(PopDelay(s)), s, now);
    case TakeExpiry =>
      ChosenTime(s, now);
      ExpirySound(s, now, w.unblock.ns, w.unblockClient);
    case TakeEvent =>
      TakeSound(s, now);
    case TakeTimer =>
      FireTimerSound(s, now);
      YieldSane(FireTimer(s, now + w.timer.ns), s, now);
    case TakeAction =>
      FireActionSound(s, now);
      YieldSane(FireAction(s, now + w.action.ns), s, now);
  }

  lemma NothingSane(s: Sim, now: int)
    requires Quiescent(s)
    ensures RoundSane(Nothing, s, now)
  {
  }

  /** Pending delays alone never yield an event. */
  lemma QuiescentRound(s: Sim, now: int)
    requires Sound(s, now) && Quiescent(s)
    ensures var r := Advance(s, now);
            (r.Again? && Quiescent(r.sim)) || r.Nothing?
  {
    var w := WaitsAt(s, now);
    AllDisarmed(s.client.actions);
    AllDisarmed(s.server.actions);
    AllDisarmed(s.client.timers);
    AllDisarmed(s.server.timers);
    SoonestFound(DueTimes(s.client.actions), 0, now, Never);
    SoonestFound(DueTimes(s.server.actions), 0, now, Soonest(DueTimes(s.client.actions), 0, now, Never));
    SoonestFound(s.client.timers, 0, now, Never);
    SoonestFound(s.server.timers, 0, now, Soonest(s.client.timers, 0, now, Never));
    assert w.action.Never? && w.timer.Never? && w.unblock.Never? && w.queue.wait.Never?;
    hide WaitsAt, Soonest, Sound, PopDelay;
    if w.delay.In? {
      PopDelayQuiescent(s);
    }
  }

  lemma {:induction false} AllDisarmed<T>(xs: seq<Option<T>>)
    requires Armed(xs) == 0
    ensures forall i :: 0 <= i < |xs| ==> xs[i].None?
  {
    if xs != [] {
      AllDisarmed(xs[..|xs| - 1]);
      assert forall i :: 0 <= i < |xs| - 1 ==> xs[i] == xs[..|xs| - 1][i];
    }
  }

  lemma PopDelayQuiescent(s: Sim)
    requires s.pending.items != [] && Quiescent(s)
    ensures Quiescent(PopDelay(s))
  {
  }

  ghost predicate NextSane(n: Next, now: int) {
    && !n.Bug?
    && (n.Next? ==> Sane(n.sim, n.event, now))
    && (n.Idle? ==> Sound(n.sim, now))
  }

  lemma PushBusy(s: Sim, e: SimEvent)
    ensures !Quiescent(PushEvent(s, e))
  {
    hide Timers, Blockings;
  }

  /** A round that goes on without an event leaves work, unless there was none. */
  lemma AgainBusy(s: Sim, now: int)
    requires Advance(s, now).Again? && Quiescent(Advance(s, now).sim)
    ensures Quiescent(s)
  {
    var w := WaitsAt(s, now);
    hide WaitsAt, Choose, PushEvent, Unblock, Quiescent, PopDelay, Block, Put, At;
    ChosenIsLeast(w);
    match Choose(w)
    case TakeDelay => PopDelayBusy(s);
    case TakeExpiry =>
      var (lag, s1) := Lag(s);
      PushBusy(Unblock(s1, now + w.unblock.ns, w.unblockClient),
               SimEvent(TEBlockingEnd, now + w.unblock.ns + lag, lag, w.unblockClient, false, false, false));
    case TakeTimer => TimerBusy(s, now + w.timer.ns);
    case TakeAction => ActionBusy(s, now + w.action.ns);
    case _ =>
  }

  lemma PopDelayBusy(s: Sim)
    requires s.pending.items != [] && Quiescent(PopDelay(s))
    ensures Quiescent(s)
  {
  }

  lemma TimerBusy(s: Sim, target: int)
    ensures FireTimer(s, target).Again? ==> !Quiescent(FireTimer(s, target).sim)
  {
    hide Timers, Blockings;
  }

  lemma ActionBusy(s: Sim, target: int)
    ensures FireAction(s, target).Again? ==> !Quiescent(FireAction(s, target).sim)
  {
    hide Timers, Blockings, Block;
  }

  /**
   In every sound state the scheduler never panics, yields an event that lies at or after now
   and leaves a state sound at its time, and finds nothing exactly when nothing is queued and
   no timer or blocking is set.
   */
  lemma {:induction false} PickNextSound(s: Sim, now: int)
    requires Sound(s, now)
    ensures NextSane(PickNext(s, now), now)
    ensures PickNext(s, now).Idle? <==> Quiescent(s)
    decreases Timers(s), Blockings(s), |s.pending.items|
  {
    hide Advance, Sane, Sound, Quiescent;
    ActSound(s, now);
    var r := Advance(s, now);
    if Quiescent(s) {
      QuiescentRound(s, now);
    }
    if r.Again? {
      RoundsShrink(s, now);
      PickNextSound(r.sim, now);
      if Quiescent(r.sim) {
        AgainBusy(s, now);
      }
    }
  }

  lemma NothingPending(s: Sim, now: int)
    requires Advance(s, now).Nothing?
    ensures s.pending.items == []
  {
    hide SoonestAction, SoonestTimer, SoonestUnblock, PeekQueue;
    ChosenIsLeast(WaitsAt(s, now));
  }

  /** When the scheduler finds nothing, no event, timer, blocking or pending delay is left. */
  lemma {:induction false} IdleLeavesNothing(s: Sim, now: int)
    requires Sound(s, now) && PickNext(s, now).Idle?
    ensures Quiescent(PickNext(s, now).sim) && PickNext(s, now).sim.pending.items == []
    decreases Timers(s), Blockings(s), |s.pending.items|
  {
    hide Advance, Sane, Sound, Quiescent;
    PickNextSound(s, now);
    ActSound(s, now);
    QuiescentRound(s, now);
    var r := Advance(s, now);
    if r.Again? {
      RoundsShrink(s, now);
      IdleLeavesNothing(r.sim, now);
    } else {
      NothingPending(s, now);
    }
  }
}
