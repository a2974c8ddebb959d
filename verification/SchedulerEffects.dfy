/**
 What each branch of the scheduler does, told by slots, heaps and the events themselves: which
 timer or action ends, what is queued for it, and what is left as it was.
 */
module SchedulerEffects {
  import opened Prelude
  import opened Machines
  import opened SimEvents
  import opened Queues
  import opened SimState
  import opened Selector
  import opened Scheduler

  // ---------- One endpoint changes ----------

  /** From s to r only that endpoint changed, and n lags were read. */
  ghost predicate OnlySide(s: Sim, r: Sim, client: bool, n: nat) {
    && r.drawn == s.drawn + n
    && r == if client then s.(client := r.client, drawn := r.drawn) else s.(server := r.server, drawn := r.drawn)
  }

  /** Event e was added to one heap of q, which gave r. */
  ghost predicate Gained(q: Queues, r: Queues, id: Queue, e: SimEvent) {
    match id
    case Blocking => r == q.(blocking := r.blocking) && r.blocking.items == q.blocking.items + [e]
    case Bypassable => r == q.(bypassable := r.bypassable) && r.bypassable.items == q.bypassable.items + [e]
    case Internal => r == q.(internal := r.internal) && r.internal.items == q.internal.items + [e]
    case Base => r == q.(base := r.base) && r.base.items == q.base.items + [e]
  }

  /** Event e was taken from one heap of q, which gave r; no event of that heap precedes it. */
  ghost predicate Lost(q: Queues, r: Queues, id: Queue, e: SimEvent) {
    match id
    case Blocking => r == q.(blocking := r.blocking) && TookFirst(q.blocking.items, r.blocking.items, e)
    case Bypassable => r == q.(bypassable := r.bypassable) && TookFirst(q.bypassable.items, r.bypassable.items, e)
    case Internal => r == q.(internal := r.internal) && TookFirst(q.internal.items, r.internal.items, e)
    case Base => r == q.(base := r.base) && TookFirst(q.base.items, r.base.items, e)
  }

  ghost predicate TookFirst(items: seq<SimEvent>, rest: seq<SimEvent>, e: SimEvent) {
    && multiset(items) == multiset(rest) + multiset{e}
    && forall x :: x in items ==> e.time < x.time || (e.time == x.time && Rank(e.event) <= Rank(x.event))
  }

  /** The order of events at equal times. */
  lemma OrderAtEqualTimes(i: nat, j: nat, k: nat, l: nat)
    ensures Rank(TETunnelSent) < Rank(TENormalSent) < Rank(TEPaddingSent(i)) < Rank(TETunnelRecv)
            < Rank(TENormalRecv) < Rank(TEPaddingRecv) < Rank(TEBlockingBegin(j)) < Rank(TEBlockingEnd)
            < Rank(TETimerBegin(k)) < Rank(TETimerEnd(l))
  {
  }

  lemma PopTakesFirst(h: Heap)
    requires h.items != []
    ensures TookFirst(h.items, Pop(h).items, Peek(h).value)
  {
    PopRemovesPeek(h);
    hide Pop, Peek;
  }

  // ---------- Timers ----------

  /** The first slot that holds the time, the client's slots first. */
  ghost predicate FirstTimer(s: Sim, client: bool, m: nat, target: int) {
    && m < |At(s, client).timers| && At(s, client).timers[m] == Some(target)
    && (forall j :: 0 <= j < m ==> At(s, client).timers[j] != Some(target))
    && (!client ==> Some(target) !in s.client.timers)
  }

  /** Timer m of the endpoint was cleared and its end queued at its time. */
  ghost predicate TimerDone(s: Sim, r: Sim, client: bool, m: nat, target: int)
    requires m < |At(s, client).timers|
  {
    var ep, ep' := At(s, client), At(r, client);
    && OnlySide(s, r, client, 0)
    && ep' == ep.(timers := ep.timers[m := None], queue := ep'.queue)
    && Gained(ep.queue, ep'.queue, Internal, SimEvent(TETimerEnd(m), target, 0, client, false, false, false))
  }

  lemma {:induction false} FirstIndex(times: seq<Option<int>>, k: nat, target: int)
    requires k <= |times|
    ensures var i := IndexOf(times, k, target);
            i.Some? ==> forall j :: k <= j < i.value ==> times[j] != Some(target)
    decreases |times| - k
  {
    if k < |times| && times[k] != Some(target) {
      FirstIndex(times, k + 1, target);
    }
  }

  /** A timer that is due is cleared, and exactly its end is queued; without one the scheduler panics. */
  lemma TimerFires(s: Sim, target: int)
    ensures var r := FireTimer(s, target);
            && (r.Panic? <==> Some(target) !in s.client.timers && Some(target) !in s.server.timers)
            && (!r.Panic? ==>
                  && r.Again?
                  && exists client: bool, m: nat ::
                       FirstTimer(s, client, m, target) && TimerDone(s, r.sim, client, m, target))
  {
    var c := IndexOf(s.client.timers, 0, target);
    var v := IndexOf(s.server.timers, 0, target);
    var r := FireTimer(s, target);
    FirstIndex(s.client.timers, 0, target);
    FirstIndex(s.server.timers, 0, target);
    if c.Some? {
      assert FirstTimer(s, true, c.value, target) && TimerDone(s, r.sim, true, c.value, target);
    } else if v.Some? {
      assert FirstTimer(s, false, v.value, target) && TimerDone(s, r.sim, false, v.value, target);
    }
  }

  // ---------- Actions ----------

  ghost predicate FirstAction(s: Sim, client: bool, m: nat, target: int) {
    && m < |At(s, client).actions| && Due(At(s, client), m, target)
    && (forall j :: 0 <= j < m ==> !Due(At(s, client), j, target))
    && (!client ==> NoneDue(s.client, target))
  }

  predicate Due(ep: Endpoint, m: nat, target: int)
    requires m < |ep.actions|
  {
    ep.actions[m].Some? && ep.actions[m].value.time == target
  }

  ghost predicate NoneDue(ep: Endpoint, target: int) {
    forall j :: 0 <= j < |ep.actions| ==> !Due(ep, j, target)
  }

  /**
   Slot m of the endpoint was cleared and its action performed. Padding queues that it was sent,
   with the next lag as delay. Blocking that replaces, or lasts longer than what goes on, sets the
   end and whether it can be bypassed; it queues that it began after the next two lags.
   */
  ghost predicate ActionDone(s: Sim, r: Sim, client: bool, m: nat)
    requires m < |At(s, client).actions| && At(s, client).actions[m].Some?
  {
    var ep, ep' := At(s, client), At(r, client);
    var a := ep.actions[m].value;
    match a.action
    case TASendPadding(machine, _, bypass, replace) =>
      && OnlySide(s, r, client, 1)
      && ep' == ep.(actions := ep.actions[m := None], queue := ep'.queue)
      && Gained(ep.queue, ep'.queue, Internal,
                SimEvent(TEPaddingSent(machine), a.time, s.lags(s.drawn), client, true, bypass, replace))
    case TABlockOutgoing(machine, _, duration, bypass, replace) =>
      var lag := s.lags(s.drawn) + s.lags(s.drawn + 1);
      var takesOver := replace || (if ep.until.Some? then ep.until.value < a.time + duration else duration > 0);
      && OnlySide(s, r, client, 2)
      && ep' == ep.(actions := ep.actions[m := None], queue := ep'.queue,
                    until := if takesOver then Some(a.time + duration) else ep.until,
                    bypassable := if takesOver then bypass else ep.bypassable)
      && Gained(ep.queue, ep'.queue, Internal,
                SimEvent(TEBlockingBegin(machine), a.time + lag, lag, client, false, ep'.bypassable, false))
    case _ => false
  }

  lemma ActionIsPerformed(s: Sim, client: bool, m: nat)
    requires m < |At(s, client).actions| && At(s, client).actions[m].Some?
    ensures var a := At(s, client).actions[m].value.action;
            var r := FireActionAt(s, client, m);
            if a.TACancel? || a.TAUpdateTimer? then r.Panic? else r.Again? && ActionDone(s, r.sim, client, m)
  {
    hide Gained, Enqueue;
    ReportGained(At(s, client).queue);
  }

  /** What is reported goes to the internal heap. */
  lemma ReportGained(q: Queues)
    ensures forall e: SimEvent :: e.event.TEPaddingSent? || e.event.TEBlockingBegin? || e.event.TEBlockingEnd? ==>
              Gained(q, Enqueue(q, e), Internal, e)
  {
  }

  /** An action that is due is cleared and performed; the scheduler panics without one, or on one of another kind. */
  lemma ActionFires(s: Sim, target: int)
    ensures var r := FireAction(s, target);
            if NoneDue(s.client, target) && NoneDue(s.server, target) then r.Panic?
            else exists client: bool, m: nat ::
                   && FirstAction(s, client, m, target)
                   && var a := At(s, client).actions[m].value.action;
                      if a.TACancel? || a.TAUpdateTimer? then r.Panic?
                      else r.Again? && ActionDone(s, r.sim, client, m)
  {
    hide FireActionAt, ActionDone;
    var c := IndexOf(DueTimes(s.client.actions), 0, target);
    var v := IndexOf(DueTimes(s.server.actions), 0, target);
    DueIsIndexed(s.client, target);
    DueIsIndexed(s.server, target);
    if c.Some? {
      ActionIsPerformed(s, true, c.value);
      assert FirstAction(s, true, c.value, target);
    } else if v.Some? {
      ActionIsPerformed(s, false, v.value);
      assert FirstAction(s, false, v.value, target);
    }
  }

  /** The scan finds the first action that is due, or there is none. */
  lemma DueIsIndexed(ep: Endpoint, target: int)
    ensures var k := IndexOf(DueTimes(ep.actions), 0, target);
            && (k.None? ==> NoneDue(ep, target))
            && (k.Some? ==> k.value < |ep.actions| && Due(ep, k.value, target)
                            && forall j :: 0 <= j < k.value ==> !Due(ep, j, target))
  {
    var times := DueTimes(ep.actions);
    var k := IndexOf(times, 0, target);
    FirstIndex(times, 0, target);
    forall j | 0 <= j < |ep.actions|
      ensures Due(ep, j, target) <==> times[j] == Some(target)
    {
    }
  }

  // ---------- Delays of the trace ----------

  /** A packet waiting to enter the tunnel. */
  predicate Held(ep: Endpoint, e: SimEvent) {
    e in ep.queue.blocking.items || e in ep.queue.bypassable.items
  }

  ghost predicate HeldBy(ep: Endpoint, t: int) {
    exists e :: Held(ep, e) && e.time <= t
  }

  /** The next trace packet is due by t. */
  ghost predicate TraceBy(ep: Endpoint, t: int) {
    exists e :: e in ep.queue.base.items && e.time + ep.sum <= t
  }

  lemma BaseIsTrace(ep: Endpoint, t: int, window: nat)
    ensures BaseWithin(ep, t, window) <==> TraceBy(ep, t + window)
  {
    hide Peek, Earlier;
    var base := ep.queue.base;
    if base.items != [] {
      TopIsSoonest(base);
    }
    if TraceBy(ep, t + window) {
      var e :| e in base.items && e.time + ep.sum <= t + window;
    }
    assert BaseWithin(ep, t, window) ==> Peek(base).value in base.items && TraceBy(ep, t + window) by {
      PeekThere(base);
    }
  }

  lemma TopIsSoonest(h: Heap)
    requires h.items != []
    ensures Peek(h).Some? && Peek(h).value in h.items && forall e :: e in h.items ==> Peek(h).value.time <= e.time
  {
  }

  lemma PeekThere(h: Heap)
    ensures Peek(h).Some? <==> h.items != []
    ensures Peek(h).Some? ==> Peek(h).value in h.items
  {
  }

  lemma WithinIsHeld(ep: Endpoint, t: int, window: nat)
    ensures AnyWithin(ep.queue.blocking.items, t, window) || AnyWithin(ep.queue.bypassable.items, t, window)
            <==> HeldBy(ep, t + window)
  {
    if HeldBy(ep, t + window) {
      var e :| Held(ep, e) && e.time <= t + window;
      assert Since(e.time, t) <= window;
    }
    forall e | Held(ep, e) && Since(e.time, t) <= window
      ensures e.time <= t + window
    {
    }
  }

  /** Replacing padding delays the trace unless a packet is held within 100 ms or the trace goes on within one. */
  lemma ReplacementDelay(ep: Endpoint, now: int, head: SimEvent)
    ensures DelayOnReplace(ep, now, head)
            == if HeldBy(ep, head.time + 100_000_000) || TraceBy(ep, head.time + 1_000_000) then None
               else Some(if head.time < now then now - head.time else 0)
  {
    WithinIsHeld(ep, head.time, 100 * MILLISECOND);
    BaseIsTrace(ep, head.time, MILLISECOND);
    hide AnyWithin, BaseWithin, HeldBy, TraceBy;
  }

  /** Congestion delays the trace on the same condition, with the delay sum that is passed in. */
  lemma CongestionDelay(ep: Endpoint, packet: SimEvent, sum: nat)
    ensures PropagatesDelay(ep, packet, sum)
            <==> !HeldBy(ep, packet.time + 100_000_000) && !TraceBy(ep.(sum := sum), packet.time + 1_000_000)
  {
    WithinIsHeld(ep, packet.time, 100 * MILLISECOND);
    BaseIsTrace(ep.(sum := sum), packet.time, MILLISECOND);
    hide AnyWithin, BaseWithin, HeldBy, TraceBy;
  }

  /** Every packet above the limit of the window adds the same delay, as long as the count fits 32 bits. */
  lemma EachPacketAbove(net: Net, count: nat)
    ensures count <= net.limit ==> Congestion(net, count) == 0
    ensures net.limit < count < net.limit + 0x1_0000_0000 ==>
              Congestion(net, count) == Congestion(net, count - 1) + net.added
  {
    if net.limit < count < net.limit + U32_RANGE {
      var n := count - net.limit;
      assert n % U32_RANGE == n && (n - 1) % U32_RANGE == n - 1;
      assert net.added * n == net.added * (n - 1) + net.added;
    }
  }

  /** Some packet is held, and the first is held since `head`. */
  ghost predicate HeldSince(ep: Endpoint, head: int) {
    && (exists e :: Held(ep, e) && e.time == head)
    && (forall e :: Held(ep, e) ==> head <= e.time)
  }

  /** Of more than two packets held, the last one within a millisecond of the head; of fewer, the head. */
  ghost predicate LastHeld(ep: Endpoint, head: int, tail: int) {
    if |ep.queue.blocking.items| + |ep.queue.bypassable.items| <= 2 then tail == head
    else
      && head <= tail <= head + 1_000_000
      && (tail == head || exists e :: Held(ep, e) && e.time == tail)
      && (forall e :: Held(ep, e) && e.time <= head + 1_000_000 ==> e.time <= tail)
  }

  lemma {:induction false} TailIsLast(items: seq<SimEvent>, k: nat, head: int, tail: int)
    requires k <= |items| && head <= tail <= head + MILLISECOND
    ensures var t := Tail(items, k, head, tail);
            && tail <= t <= head + MILLISECOND
            && (t == tail || exists e :: e in items && e.time == t)
            && (forall i :: k <= i < |items| && items[i].time <= head + MILLISECOND ==> items[i].time <= t)
    decreases |items| - k
  {
    if k < |items| {
      var x := items[k].time;
      assert items[k] in items;
      TailIsLast(items, k + 1, head, if Since(x, head) <= MILLISECOND && x > tail then x else tail);
    }
  }

  lemma TailOfIsLast(ep: Endpoint, head: int)
    ensures LastHeld(ep, head, TailOf(ep.queue, head))
  {
    hide Tail;
    var b, p := ep.queue.blocking.items, ep.queue.bypassable.items;
    TailIsLast(b, 0, head, head);
    var t := Tail(b, 0, head, head);
    TailIsLast(p, 0, head, t);
    assert forall e :: e in b ==> exists i :: 0 <= i < |b| && b[i] == e;
    assert forall e :: e in p ==> exists i :: 0 <= i < |p| && p[i] == e;
  }

  /**
   The delay that an expiry causes: none without a packet held before it, none if the last packet
   close behind the first is held since just then or the trace goes on within a millisecond of the
   first; otherwise what that last packet has waited.
   */
  lemma ExpiryDelays(ep: Endpoint, expire: int)
    ensures var delay := ExpiryDelay(ep, expire);
            if forall e :: !Held(ep, e) then delay == None
            else exists head: int, tail: int ::
                   && HeldSince(ep, head) && LastHeld(ep, head, tail)
                   && delay == if expire <= head || tail == expire || TraceBy(ep, head + 1_000_000) then None
                               else Some(if tail < expire then expire - tail else 0)
  {
    hide LastHeld, Peek, TailOf, TraceBy, BaseWithin, Earlier;
    var (head, id) := PeekBlocking(ep.queue, false);
    FirstHeld(ep);
    if head.Some? {
      var h := head.value.time;
      TailOfIsLast(ep, h);
      BaseIsTrace(ep, h, MILLISECOND);
      assert HeldSince(ep, h) && LastHeld(ep, h, TailOf(ep.queue, h));
      assert Held(ep, head.value);
    }
  }

  lemma FirstHeld(ep: Endpoint)
    ensures var (head, id) := PeekBlocking(ep.queue, false);
            if head.Some? then Held(ep, head.value) && HeldSince(ep, head.value.time)
            else forall e :: !Held(ep, e)
  {
    var (head, id) := PeekBlocking(ep.queue, false);
    if head.Some? {
      assert Held(ep, head.value);
    }
  }

  // ---------- Ends of blocking ----------

  /** Blocking ended at that endpoint, and the delay it caused is owed from then on. */
  ghost predicate Opened(s: Sim, r: Sim, expire: int, client: bool) {
    var delay := ExpiryDelay(At(s, client).(until := None), expire);
    && r.net == s.net && r.lags == s.lags && r.drawn == s.drawn + 1
    && At(r, !client) == At(s, !client)
    && At(r, client) == At(s, client).(until := None, queue := At(r, client).queue)
    && r.pending == (if delay.Some? then PushDelay(s, delay.value, expire, client).pending else s.pending)
    && r.pushed == s.pushed + (if delay.Some? then delay.value else 0)
  }

  /** Blocking is turned off; its end is yielded at once, or queued if the next lag delays the report. */
  lemma BlockingEnds(s: Sim, expire: int, client: bool)
    ensures var r := EndBlocking(s, expire, client);
            var lag := s.lags(s.drawn);
            && (r.Again? || r.Yield?) && Opened(s, r.sim, expire, client)
            && (r.Yield? <==> lag == 0)
            && (r.Yield? ==>
                  && At(r.sim, client).queue == At(s, client).queue
                  && r.event == SimEvent(TEBlockingEnd, expire, 0, client, false, false, false))
            && (r.Again? ==>
                  Gained(At(s, client).queue, At(r.sim, client).queue, Internal,
                         SimEvent(TEBlockingEnd, expire + lag, lag, client, false, false, false)))
  {
    hide ExpiryDelay, Gained, Enqueue;
    ReportGained(At(s, client).queue);
  }

  // ---------- Queued events ----------

  /** The first event of a heap is taken out, shifted if it is of the trace, and not before its wait is over. */
  lemma EventIsTaken(s: Sim, p: Pick, now: int)
    requires p.wait.In?
    ensures var r := TakeQueued(s, p, now);
            var ep := At(s, p.client);
            && (r.Panic? <==> Select(ep.queue, p.queue).items == [])
            && (!r.Panic? ==>
                  && r.Yield? && OnlySide(s, r.sim, p.client, 0)
                  && At(r.sim, p.client) == ep.(queue := At(r.sim, p.client).queue)
                  && exists e ::
                       && Lost(ep.queue, At(r.sim, p.client).queue, p.queue, e)
                       && r.event == e.(time := Max(e.time + (if p.queue == Base then ep.sum else 0), now + p.wait.ns)))
  {
    hide Pop, Peek, TookFirst;
    var ep := At(s, p.client);
    var h := Select(ep.queue, p.queue);
    if h.items != [] {
      PopTakesFirst(h);
      var r := TakeQueued(s, p, now);
      assert Lost(ep.queue, At(r.sim, p.client).queue, p.queue, Peek(h).value);
    }
  }

  // ---------- Pending delays ----------

  /** A pending delay that no other precedes takes effect: the delay sum of its endpoint grows by it. */
  lemma DelayTakesEffect(s: Sim)
    requires s.pending.items != []
    ensures var r := PopDelay(s);
            exists d: PendingDelay ::
              && d in s.pending.items && (forall x :: x in s.pending.items ==> d.time <= x.time)
              && multiset(s.pending.items) == multiset(r.pending.items) + multiset{d}
              && At(r, d.client) == At(s, d.client).(sum := At(s, d.client).sum + d.delay)
              && At(r, !d.client) == At(s, !d.client)
              && r == s.(pending := r.pending, client := r.client, server := r.server)
  {
    hide SoonestDelay;
    var k := SoonestDelay(s.pending);
    WithoutOne(s.pending.items, k);
    assert s.pending.items[k] in s.pending.items;
  }

  lemma WithoutOne(items: seq<PendingDelay>, k: nat)
    requires IsSoonest(items, k)
    ensures multiset(items) == multiset(items[..k] + items[k + 1..]) + multiset{items[k]}
    ensures forall x :: x in items ==> items[k].time <= x.time
  {
    assert items == items[..k] + [items[k]] + items[k + 1..];
  }

  // ---------- The choice ----------

  predicate Below(a: Wait, b: Wait) {
    a.In? && (b.Never? || a.ns < b.ns)
  }

  /**
   The choice is the first of pending delay, expiry, queued event, timer and action whose wait
   no other is below; there is none exactly if nothing is awaited.
   */
  lemma FirstOfShortest(w: Waits)
    ensures var least := Chosen(w);
            && !Below(w.delay, least) && !Below(w.unblock, least) && !Below(w.queue.wait, least)
            && !Below(w.timer, least) && !Below(w.action, least)
            && match Choose(w)
               case NoChoice => least == Never
               case TakeDelay => least == w.delay && w.delay.In?
               case TakeExpiry => least == w.unblock && Below(least, w.delay)
               case TakeEvent => least == w.queue.wait && Below(least, w.delay) && Below(least, w.unblock)
               case TakeTimer =>
                 && least == w.timer && Below(least, w.delay) && Below(least, w.unblock)
                 && Below(least, w.queue.wait)
               case TakeAction =>
                 && least == w.action && Below(least, w.delay) && Below(least, w.unblock)
                 && Below(least, w.queue.wait) && Below(least, w.timer)
  {
  }

  /** The endpoint whose blocking ends first; of two that end at once, the server. */
  lemma SoonerUnblocked(s: Sim, now: int)
    ensures var (wait, client) := SoonestUnblock(s, now);
            if s.client.until.None? && s.server.until.None? then wait == Never
            else
              && At(s, client).until.Some? && wait == In(Since(At(s, client).until.value, now))
              && (At(s, !client).until.Some? ==>
                    if client then s.client.until.value < s.server.until.value
                    else s.server.until.value <= s.client.until.value)
  {
  }

  /** A round does what its choice says, at the time of the chosen wait. */
  lemma RoundByChoice(s: Sim, now: int)
    ensures var w := WaitsAt(s, now);
            var r := Advance(s, now);
            match Choose(w)
            case NoChoice => r == Nothing
            case TakeDelay => s.pending.items != [] && r == Again(PopDelay(s))
            case TakeExpiry => w.unblock.In? && r == EndBlocking(s, now + w.unblock.ns, w.unblockClient)
            case TakeEvent => w.queue.wait.In? && r == TakeQueued(s, w.queue, now)
            case TakeTimer => w.timer.In? && r == FireTimer(s, now + w.timer.ns)
            case TakeAction => w.action.In? && r == FireAction(s, now + w.action.ns)
  {
    hide WaitsAt, Choose, Chosen, EndBlocking, TakeQueued, FireTimer, FireAction, PopDelay, AtMost;
    ChosenIsLeast(WaitsAt(s, now));
  }
}
