/**
 The scheduler `pick_next`: it recurses through timers, blocking expiries and pending
 delays until an event can be processed. A panic of the source is the outcome Bug.
 */
module Scheduler {
  import opened Prelude
  import opened Machines
  import opened SimEvents
  import opened Queues
  import opened SimState
  import opened Selector

  /** One round of the scheduler: an event to process, another round, nothing left, or a panic. */
  datatype Round = Yield(sim: Sim, event: SimEvent) | Again(sim: Sim) | Nothing | Panic

  datatype Next = Next(sim: Sim, event: SimEvent) | Idle(sim: Sim) | Bug

  // ---------- The branches of a round ----------

  /** The delay that the blocked packets of an endpoint suffered when its blocking expires. */
  function ExpiryDelay(ep: Endpoint, expire: int): Option<nat> {
    var (head, _) := PeekBlocking(ep.queue, false);
    if head.Some? && head.value.time < expire then DelayOnExpire(ep, expire, head.value) else None
  }

  /** Turn blocking off at an endpoint and schedule the delay it caused. */
  function Unblock(s: Sim, expire: int, client: bool): Sim {
    var ep := At(s, client).(until := None);
    var s1 := Put(s, client, ep);
    match ExpiryDelay(ep, expire)
    case None => s1
    case Some(delay) => PushDelay(s1, delay, expire, client)
  }

  /** The end of blocking, reported after a lag. */
  function EndBlocking(s: Sim, expire: int, client: bool): Round {
    var (lag, s1) := Lag(s);
    var s2 := Unblock(s1, expire, client);
    var e := SimEvent(TEBlockingEnd, expire + lag, lag, client, false, false, false);
    if lag > 0 then Again(PushEvent(s2, e)) else Yield(s2, e)
  }

  /** Take the picked event out of its heap; blocking may have moved it forward in time. */
  function TakeQueued(s: Sim, p: Pick, now: int): Round
    requires p.wait.In?
  {
    var ep := At(s, p.client);
    if Select(ep.queue, p.queue).items == [] then Panic
    else
      var (queue, e) := Dequeue(ep.queue, p.queue, ep.sum);
      Yield(Put(s, p.client, ep.(queue := queue)),
            if now + p.wait.ns > e.time then e.(time := now + p.wait.ns) else e)
  }

  function TimerEnded(machine: nat, time: int, client: bool): SimEvent {
    SimEvent(TETimerEnd(machine), time, 0, client, false, false, false)
  }

  function FireTimerAt(s: Sim, client: bool, machine: nat, target: int): Sim
    requires machine < |At(s, client).timers|
  {
    var ep := At(s, client);
    PushEvent(Put(s, client, ep.(timers := ep.timers[machine := None])), TimerEnded(machine, target, client))
  }

  /** The first internal timer that is due, the client's first. */
  function FireTimer(s: Sim, target: int): Round {
    var c := IndexOf(s.client.timers, 0, target);
    var v := IndexOf(s.server.timers, 0, target);
    if c.Some? then Again(FireTimerAt(s, true, c.value, target))
    else if v.Some? then Again(FireTimerAt(s, false, v.value, target))
    else Panic
  }

  /** Blocking from the action's time on: extend it, or replace it, or leave it. */
  function Block(ep: Endpoint, time: int, duration: nat, bypass: bool, replace: bool): Endpoint {
    if replace || time + duration > (if ep.until.Some? then ep.until.value else time)
    then ep.(until := Some(time + duration), bypassable := bypass) else ep
  }

  /**
   Blocking that replaces sets the end; other blocking can only extend it, and blocking for no
   time starts none. Whether blocking can be bypassed changes exactly when it takes over.
   */
  lemma BlockingOnlyExtends(ep: Endpoint, time: int, duration: nat, bypass: bool, replace: bool)
    ensures var r := Block(ep, time, duration, bypass, replace);
            && (replace ==> r.until == Some(time + duration))
            && (!replace && ep.until.Some? ==> r.until == Some(Max(ep.until.value, time + duration)))
            && (!replace && ep.until.None? ==> r.until == if duration > 0 then Some(time + duration) else None)
            && r.bypassable == (if replace || r.until != ep.until then bypass else ep.bypassable)
            && r == ep.(until := r.until, bypassable := r.bypassable)
  {
  }

  /** Perform a scheduled action of an endpoint, whose slot has been cleared. */
  function Perform(s: Sim, client: bool, a: Scheduled): Round {
    match a.action
    case TACancel(_, _) => Panic
    case TAUpdateTimer(_, _, _) => Panic
    case TASendPadding(machine, _, bypass, replace) =>
      var (lag, s1) := Lag(s);
      Again(PushEvent(s1, SimEvent(TEPaddingSent(machine), a.time, lag, client, true, bypass, replace)))
    case TABlockOutgoing(machine, _, duration, bypass, replace) =>
      var (lag1, s1) := Lag(s);
      var (lag2, s2) := Lag(s1);
      var ep := Block(At(s2, client), a.time, duration, bypass, replace);
      Again(PushEvent(Put(s2, client, ep),
                      SimEvent(TEBlockingBegin(machine), a.time + lag1 + lag2, lag1 + lag2, client, false,
                               ep.bypassable, false)))
  }

  function FireActionAt(s: Sim, client: bool, machine: nat): Round
    requires machine < |At(s, client).actions| && At(s, client).actions[machine].Some?
  {
    var ep := At(s, client);
    Perform(Put(s, client, ep.(actions := ep.actions[machine := None])), client, ep.actions[machine].value)
  }

  /** The first scheduled action that is due, the client's first. */
  function FireAction(s: Sim, target: int): Round {
    var c := IndexOf(DueTimes(s.client.actions), 0, target);
    var v := IndexOf(DueTimes(s.server.actions), 0, target);
    if c.Some? then FireActionAt(s, true, c.value)
    else if v.Some? then FireActionAt(s, false, v.value)
    else Panic
  }

  /** The waits that compete in a round. */
  datatype Waits = Waits(action: Wait, timer: Wait, unblock: Wait, unblockClient: bool, delay: Wait, queue: Pick)

  function WaitsAt(s: Sim, now: int): (w: Waits)
    ensures w.delay.In? ==> s.pending.items != []
  {
    var a := SoonestAction(s, now);
    var i := SoonestTimer(s, now);
    var (b, client) := SoonestUnblock(s, now);
    var n := WaitForDelay(s, now);
    Waits(a, i, b, client, n, PeekQueue(s, Least(Least(Least(a, i), b), n), now))
  }

  datatype Choice = NoChoice | TakeDelay | TakeExpiry | TakeEvent | TakeTimer | TakeAction

  /** The shortest wait wins; ties go to pending delays, then expiries, then queued events, then timers. */
  function Choose(w: Waits): Choice {
    if w.action.Never? && w.timer.Never? && w.unblock.Never? && w.delay.Never? && w.queue.wait.Never? then NoChoice
    else if AtMost(w.delay, w.action) && AtMost(w.delay, w.timer) && AtMost(w.delay, w.unblock)
            && AtMost(w.delay, w.queue.wait) then TakeDelay
    else if AtMost(w.unblock, w.action) && AtMost(w.unblock, w.timer) && AtMost(w.unblock, w.queue.wait) then TakeExpiry
    else if AtMost(w.queue.wait, w.action) && AtMost(w.queue.wait, w.timer) then TakeEvent
    else if AtMost(w.timer, w.action) then TakeTimer
    else TakeAction
  }

  /** The wait of the choice. */
  function Chosen(w: Waits): Wait {
    match Choose(w)
    case NoChoice => Never
    case TakeDelay => w.delay
    case TakeExpiry => w.unblock
    case TakeEvent => w.queue.wait
    case TakeTimer => w.timer
    case TakeAction => w.action
  }

  /** No wait is shorter than the chosen one, and no expiry or delay ties with an event. */
  lemma ChosenIsLeast(w: Waits)
    ensures Choose(w).NoChoice? <==> Chosen(w).Never?
    ensures AtMost(Chosen(w), w.action) && AtMost(Chosen(w), w.timer) && AtMost(Chosen(w), w.unblock)
            && AtMost(Chosen(w), w.delay) && AtMost(Chosen(w), w.queue.wait)
    ensures Choose(w).TakeDelay? ==> w.delay.In?
    ensures Choose(w).TakeExpiry? ==> w.unblock.In? && Chosen(w) == w.unblock
    ensures Choose(w).TakeEvent? ==> w.queue.wait.In? && Chosen(w) == w.queue.wait && !AtMost(w.unblock, Chosen(w))
    ensures Choose(w).TakeTimer? ==> w.timer.In?
    ensures Choose(w).TakeAction? ==> w.action.In?
  {
  }

  /** One round, given the waits. */
  function Act(s: Sim, now: int, w: Waits): Round
    requires w.delay.In? ==> s.pending.items != []
  {
    ChosenIsLeast(w);
    match Choose(w)
    case NoChoice => Nothing
    case TakeDelay => Again(PopDelay(s))
    case TakeExpiry => EndBlocking(s, now + w.unblock.ns, w.unblockClient)
    case TakeEvent => TakeQueued(s, w.queue, now)
    case TakeTimer => FireTimer(s, now + w.timer.ns)
    case TakeAction => FireAction(s, now + w.action.ns)
  }

  function Advance(s: Sim, now: int): Round {
    Act(s, now, WaitsAt(s, now))
  }

  // ---------- Termination ----------

  function Armed<T>(xs: seq<Option<T>>): nat {
    if xs == [] then 0 else Armed(xs[..|xs| - 1]) + (if xs[|xs| - 1].Some? then 1 else 0)
  }

  lemma {:induction false} DisarmOne<T>(xs: seq<Option<T>>, k: nat)
    requires k < |xs| && xs[k].Some?
    ensures Armed(xs[k := None]) == Armed(xs) - 1
  {
    var last := |xs| - 1;
    if k < last {
      DisarmOne(xs[..last], k);
      assert xs[k := None][..last] == xs[..last][k := None];
    } else {
      assert xs[k := None][..last] == xs[..last];
    }
  }

  function ArmedAt(ep: Endpoint): nat {
    Armed(ep.actions) + Armed(ep.timers)
  }

  /** Scheduled actions and internal timers. */
  function Timers(s: Sim): nat {
    ArmedAt(s.client) + ArmedAt(s.server)
  }

  /** Endpoints that are blocking. */
  function Blockings(s: Sim): nat {
    (if s.client.until.Some? then 1 else 0) + (if s.server.until.Some? then 1 else 0)
  }

  predicate Smaller(a: Sim, b: Sim) {
    || Timers(a) < Timers(b)
    || (Timers(a) == Timers(b) && Blockings(a) < Blockings(b))
    || (Timers(a) == Timers(b) && Blockings(a) == Blockings(b) && |a.pending.items| < |b.pending.items|)
  }

  lemma UnblockIsOn(s: Sim, now: int)
    ensures SoonestUnblock(s, now).0.In? ==> At(s, SoonestUnblock(s, now).1).until.Some?
  {
  }

  lemma EndBlockingShrinks(s: Sim, expire: int, client: bool)
    requires At(s, client).until.Some?
    ensures EndBlocking(s, expire, client).Again? ==> Smaller(EndBlocking(s, expire, client).sim, s)
  {
    hide ExpiryDelay, Enqueue, Armed;
  }

  lemma FireTimerShrinks(s: Sim, target: int)
    ensures FireTimer(s, target).Again? ==> Smaller(FireTimer(s, target).sim, s)
  {
    hide Enqueue;
    var c := IndexOf(s.client.timers, 0, target);
    var v := IndexOf(s.server.timers, 0, target);
    if c.Some? {
      DisarmOne(s.client.timers, c.value);
    } else if v.Some? {
      DisarmOne(s.server.timers, v.value);
    }
  }

  lemma FireActionAtShrinks(s: Sim, client: bool, machine: nat)
    requires machine < |At(s, client).actions| && At(s, client).actions[machine].Some?
    ensures FireActionAt(s, client, machine).Again? ==> Smaller(FireActionAt(s, client, machine).sim, s)
  {
    hide Enqueue;
    DisarmOne(At(s, client).actions, machine);
  }

  lemma FireActionShrinks(s: Sim, target: int)
    ensures FireAction(s, target).Again? ==> Smaller(FireAction(s, target).sim, s)
  {
    hide FireActionAt, Smaller;
    var c := IndexOf(DueTimes(s.client.actions), 0, target);
    var v := IndexOf(DueTimes(s.server.actions), 0, target);
    if c.Some? {
      FireActionAtShrinks(s, true, c.value);
    } else if v.Some? {
      FireActionAtShrinks(s, false, v.value);
    }
  }

  lemma ActShrinks(s: Sim, now: int, w: Waits)
    requires w.delay.In? ==> s.pending.items != []
    requires w.unblock.In? ==> At(s, w.unblockClient).until.Some?
    ensures Act(s, now, w).Again? ==> Smaller(Act(s, now, w).sim, s)
  {
    hide EndBlocking, FireTimer, FireAction, PopDelay, Smaller, Choose, AtMost;
    ChosenIsLeast(w);
    match Choose(w)
    case NoChoice =>
    case TakeDelay => PopDelayShrinks(s);
    case TakeExpiry => EndBlockingShrinks(s, now + w.unblock.ns, w.unblockClient);
    case TakeEvent =>
    case TakeTimer => FireTimerShrinks(s, now + w.timer.ns);
    case TakeAction => FireActionShrinks(s, now + w.action.ns);
  }

  /** Every further round is smaller, in every state at all. */
  lemma RoundsShrink(s: Sim, now: int)
    ensures Advance(s, now).Again? ==> Smaller(Advance(s, now).sim, s)
  {
    UnblockIsOn(s, now);
    hide Act, Smaller, PeekQueue;
    ActShrinks(s, now, WaitsAt(s, now));
  }

  lemma PopDelayShrinks(s: Sim)
    requires s.pending.items != []
    ensures Smaller(PopDelay(s), s)
  {
  }

  function PickNext(s: Sim, now: int): (r: Next)
    decreases Timers(s), Blockings(s), |s.pending.items|
  {
    match Advance(s, now)
    case Yield(s', e) => Next(s', e)
    case Again(s') => RoundsShrink(s, now); PickNext(s', now)
    case Nothing => Idle(s)
    case Panic => Bug
  }
}
