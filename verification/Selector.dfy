/**
 The fast selector of the next queued event, and its refinement of a naive minimum over
 every queued event of both endpoints.
 */
module Selector {
  import opened Prelude
  import opened Machines
  import opened SimEvents
  import opened Queues
  import opened SimState

  /** What the selector answers: how long until the event, in which heap, at which endpoint. */
  datatype Pick = Pick(wait: Wait, queue: Queue, client: bool)

  // ---------- The selector of the source ----------

  /** The first event of either endpoint, blocked or not; the client wins ties. */
  function PeekBoth(s: Sim, now: int): (Option<SimEvent>, Queue, nat) {
    var (c, cq, cd) := PeekAny(s.client.queue, s.client.sum, now);
    var (v, vq, vd) := PeekAny(s.server.queue, s.server.sum, now);
    if v.None? || (c.Some? && (cd < vd || (cd == vd && Rank(c.value.event) <= Rank(v.value.event))))
    then (c, cq, cd) else (v, vq, vd)
  }

  function PeekQueue(s: Sim, earliest: Wait, now: int): Pick {
    if Size(s.client.queue) + Size(s.server.queue) == 0 then Pick(Never, Blocking, false)
    else
      var (e, queue, wait) := PeekBoth(s, now);
      if e.None? || !AtMost(In(wait), earliest) then Pick(Never, Blocking, false)
      else
        var ep := At(s, e.value.client);
        if || e.value.event != TETunnelSent
           || ep.until.None?
           || (ep.bypassable && e.value.bypass)
        then Pick(In(wait), queue, e.value.client)
        else
          var c := EarliestSide(s.client, now, true);
          var v := EarliestSide(s.server, now, false);
          if AtMost(c.wait, v.wait) then c else v
  }

  /** The time of the first event that blocking does not hold back, given its heap. */
  function FreeTime(e: SimEvent, queue: Queue, sum: nat): int {
    if queue == Base then e.time + sum else e.time
  }

  function EarliestSide(ep: Endpoint, now: int, client: bool): Pick {
    var (b, bq) := PeekBlocking(ep.queue, ep.bypassable);
    var (n, nq) := PeekNonBlocking(ep.queue, ep.bypassable, ep.sum);
    var until := if ep.until.Some? then ep.until.value else now;
    if b.None? && n.None? then Pick(Never, Blocking, client)
    else if b.None? then Pick(In(Since(FreeTime(n.value, nq, ep.sum), now)), nq, client)
    else if n.None? then Pick(In(Since(Max(b.value.time, until), now)), bq, client)
    else
      var held := Max(b.value.time, until);
      var free := FreeTime(n.value, nq, ep.sum);
      if held < free || (held == free && nq != Base) then Pick(In(Since(held, now)), bq, client)
      else Pick(In(Since(free, now)), nq, client)
  }

  // ---------- The naive account ----------

  /** The time from which an event in the given heap may be processed. */
  function ReleaseTime(ep: Endpoint, queue: Queue, e: SimEvent): int {
    match queue
    case Base => e.time + ep.sum
    case Internal => e.time
    case Blocking => if ep.until.Some? then Max(e.time, ep.until.value) else e.time
    case Bypassable => if ep.until.Some? && !ep.bypassable then Max(e.time, ep.until.value) else e.time
  }

  function WaitOf(ep: Endpoint, queue: Queue, e: SimEvent, now: int): nat {
    Since(ReleaseTime(ep, queue, e), now)
  }

  /** No event in the heap can be processed before d has passed. */
  ghost predicate NoneSooner(ep: Endpoint, queue: Queue, now: int, d: nat) {
    forall e :: e in Select(ep.queue, queue).items ==> d <= WaitOf(ep, queue, e, now)
  }

  ghost predicate NoneSoonerAtAll(ep: Endpoint, now: int, d: nat) {
    && NoneSooner(ep, Base, now, d) && NoneSooner(ep, Internal, now, d)
    && NoneSooner(ep, Blocking, now, d) && NoneSooner(ep, Bypassable, now, d)
  }

  ghost predicate NoneSoonerUnlessBypassing(ep: Endpoint, now: int, d: nat) {
    NoneSooner(ep, Base, now, d) && NoneSooner(ep, Internal, now, d) && NoneSooner(ep, Blocking, now, d)
  }

  /** The pick names a heap whose top can be processed after exactly the picked wait. */
  ghost predicate Names(s: Sim, p: Pick, now: int)
    requires p.wait.In?
  {
    var ep := At(s, p.client);
    var h := Select(ep.queue, p.queue);
    h.items != [] && WaitOf(ep, p.queue, Peek(h).value, now) == p.wait.ns
  }

  ghost predicate TypedSim(s: Sim) {
    Typed(s.client.queue, true) && Typed(s.server.queue, false)
  }

  /**
   The case in which one endpoint's search goes wrong. With a bypassable blocking, the first
   bypassing packet is compared with the first trace packet by the raw time of the latter,
   although that packet is due only after the delay sum.
   */
  predicate Overtaken(ep: Endpoint) {
    && ep.bypassable
    && PeekUnblocked(ep.queue, ep.sum).1 == Base
    && Peek(ep.queue.bypassable).Some?
    && Peek(ep.queue.base).value.time
       < Peek(ep.queue.bypassable).value.time
       < Peek(ep.queue.base).value.time + ep.sum
  }

  // ---------- One endpoint ----------

  ghost predicate NotBefore(h: Heap, t: int) {
    forall e :: e in h.items ==> t <= e.time
  }

  lemma NotBeforeWaits(ep: Endpoint, queue: Queue, now: int, t: int)
    requires NotBefore(Select(ep.queue, queue), if queue == Base then t - ep.sum else t)
    ensures NoneSooner(ep, queue, now, Since(t, now))
  {
  }

  /** Held events wait for the end of blocking as well. */
  lemma HeldWaits(ep: Endpoint, queue: Queue, now: int, t: int)
    requires queue == Blocking || (queue == Bypassable && !ep.bypassable)
    requires NotBefore(Select(ep.queue, queue), t)
    ensures NoneSooner(ep, queue, now, Since(Max(t, if ep.until.Some? then ep.until.value else now), now))
  {
  }

  /** The unblocked search finds the first of the base and internal events. */
  lemma UnblockedSoonest(ep: Endpoint)
    ensures var (n, nq) := PeekUnblocked(ep.queue, ep.sum);
            && (n.None? ==> ep.queue.base.items == [] && ep.queue.internal.items == [])
            && (n.Some? ==>
                  && nq in {Base, Internal}
                  && Peek(Select(ep.queue, nq)) == n
                  && NotBefore(ep.queue.base, FreeTime(n.value, nq, ep.sum) - ep.sum)
                  && NotBefore(ep.queue.internal, FreeTime(n.value, nq, ep.sum)))
  {
  }

  /** Whatever the raw comparison chooses, no base or internal event comes sooner. */
  lemma NonBlockingSoonest(ep: Endpoint, client: bool)
    requires Typed(ep.queue, client)
    ensures var (n, nq) := PeekNonBlocking(ep.queue, ep.bypassable, ep.sum);
            && (n.None? ==> ep.queue.base.items == [] && ep.queue.internal.items == []
                            && (ep.bypassable ==> ep.queue.bypassable.items == []))
            && (n.Some? ==>
                  && nq != Blocking && (nq == Bypassable ==> ep.bypassable)
                  && Peek(Select(ep.queue, nq)) == n
                  && NotBefore(ep.queue.base, FreeTime(n.value, nq, ep.sum) - ep.sum)
                  && NotBefore(ep.queue.internal, FreeTime(n.value, nq, ep.sum))
                  && (ep.bypassable && !Overtaken(ep) ==>
                        NotBefore(ep.queue.bypassable, FreeTime(n.value, nq, ep.sum))))
  {
    UnblockedSoonest(ep);
    var (n, nq) := PeekUnblocked(ep.queue, ep.sum);
    if n.Some? {
      assert nq == Base ==> n.value.event == TENormalSent;
      assert nq == Internal ==> n.value.event != TETunnelSent;
    }
    if Peek(ep.queue.bypassable).Some? {
      assert Peek(ep.queue.bypassable).value.event == TETunnelSent;
    }
    hide Typed, PeekUnblocked, IsFirst;
  }

  /** The blocked search finds the first of the events that blocking can hold back. */
  lemma BlockingSoonest(ep: Endpoint)
    ensures var (b, bq) := PeekBlocking(ep.queue, ep.bypassable);
            && (b.None? ==> ep.queue.blocking.items == [] && (!ep.bypassable ==> ep.queue.bypassable.items == []))
            && (b.Some? ==>
                  && bq in {Blocking, Bypassable} && (bq == Bypassable ==> !ep.bypassable)
                  && Peek(Select(ep.queue, bq)) == b
                  && NotBefore(ep.queue.blocking, b.value.time)
                  && (!ep.bypassable ==> NotBefore(ep.queue.bypassable, b.value.time)))
  {
  }

  /** What one endpoint's search answers, said of an arbitrary wait d. */
  ghost predicate SideAnswer(ep: Endpoint, queue: Queue, now: int, d: nat) {
    && Select(ep.queue, queue).items != []
    && WaitOf(ep, queue, Peek(Select(ep.queue, queue)).value, now) == d
    && NoneSooner(ep, Base, now, d)
    && NoneSooner(ep, Internal, now, d)
    && NoneSooner(ep, Blocking, now, d)
    && (!Overtaken(ep) ==> NoneSooner(ep, Bypassable, now, d))
  }

  lemma Later(ep: Endpoint, queue: Queue, now: int, d: nat, d': nat)
    requires NoneSooner(ep, queue, now, d') && d <= d'
    ensures NoneSooner(ep, queue, now, d)
  {
  }

  /** The waits of the events that blocking can hold back, given the first of them. */
  lemma HeldSide(ep: Endpoint, now: int) returns (held: Wait)
    ensures var (b, bq) := PeekBlocking(ep.queue, ep.bypassable);
            && (held.Never? <==> b.None?)
            && (b.None? ==> ep.queue.blocking.items == [] && (!ep.bypassable ==> ep.queue.bypassable.items == []))
            && (b.Some? ==>
                  && held == In(Since(Max(b.value.time, if ep.until.Some? then ep.until.value else now), now))
                  && Select(ep.queue, bq).items != []
                  && WaitOf(ep, bq, Peek(Select(ep.queue, bq)).value, now) == held.ns
                  && NoneSooner(ep, Blocking, now, held.ns)
                  && (!ep.bypassable ==> NoneSooner(ep, Bypassable, now, held.ns)))
  {
    BlockingSoonest(ep);
    var (b, bq) := PeekBlocking(ep.queue, ep.bypassable);
    hide PeekBlocking, Peek, NoneSooner, NotBefore;
    held := Never;
    if b.Some? {
      held := In(Since(Max(b.value.time, if ep.until.Some? then ep.until.value else now), now));
      HeldWaits(ep, Blocking, now, b.value.time);
      if !ep.bypassable {
        HeldWaits(ep, Bypassable, now, b.value.time);
      }
    }
  }

  /** The waits of the events that blocking does not hold back, given the chosen one. */
  lemma FreeSide(ep: Endpoint, now: int, client: bool) returns (free: Wait)
    requires Typed(ep.queue, client)
    ensures var (n, nq) := PeekNonBlocking(ep.queue, ep.bypassable, ep.sum);
            && (free.Never? <==> n.None?)
            && (n.None? ==> ep.queue.base.items == [] && ep.queue.internal.items == []
                            && (ep.bypassable ==> ep.queue.bypassable.items == []))
            && (n.Some? ==>
                  && free == In(Since(FreeTime(n.value, nq, ep.sum), now))
                  && Select(ep.queue, nq).items != []
                  && WaitOf(ep, nq, Peek(Select(ep.queue, nq)).value, now) == free.ns
                  && NoneSooner(ep, Base, now, free.ns)
                  && NoneSooner(ep, Internal, now, free.ns)
                  && (ep.bypassable && !Overtaken(ep) ==> NoneSooner(ep, Bypassable, now, free.ns)))
  {
    NonBlockingSoonest(ep, client);
    var (n, nq) := PeekNonBlocking(ep.queue, ep.bypassable, ep.sum);
    hide PeekNonBlocking, Peek, NoneSooner, NotBefore, Overtaken, Typed;
    free := Never;
    if n.Some? {
      var t := FreeTime(n.value, nq, ep.sum);
      free := In(Since(t, now));
      NotBeforeWaits(ep, Base, now, t);
      NotBeforeWaits(ep, Internal, now, t);
      if ep.bypassable && !Overtaken(ep) {
        NotBeforeWaits(ep, Bypassable, now, t);
      }
    }
  }

  /**
   One endpoint's search: the named top has the returned wait, no base, internal or blocked
   event comes sooner, and neither does a bypassing one unless the endpoint is overtaken.
   */
  lemma SideSoonest(ep: Endpoint, now: int, client: bool)
    requires Typed(ep.queue, client)
    ensures var p := EarliestSide(ep, now, client);
            && p.client == client
            && (p.wait.Never? ==> Size(ep.queue) == 0)
            && (p.wait.In? ==> SideAnswer(ep, p.queue, now, p.wait.ns))
  {
    var free := FreeSide(ep, now, client);
    var held := HeldSide(ep, now);
    assert Overtaken(ep) ==> ep.bypassable;
    hide PeekNonBlocking, PeekBlocking, Peek, Typed, Overtaken, WaitOf, NoneSooner;
    var p := EarliestSide(ep, now, client);
    if p.wait.In? {
      var d := p.wait.ns;
      if free.In? {
        Later(ep, Base, now, d, free.ns);
        Later(ep, Internal, now, d, free.ns);
        if ep.bypassable && !Overtaken(ep) {
          Later(ep, Bypassable, now, d, free.ns);
        }
      } else {
        Empty(ep, Base, now, d);
        Empty(ep, Internal, now, d);
        if ep.bypassable {
          Empty(ep, Bypassable, now, d);
        }
      }
      if held.In? {
        Later(ep, Blocking, now, d, held.ns);
        if !ep.bypassable {
          Later(ep, Bypassable, now, d, held.ns);
        }
      } else {
        Empty(ep, Blocking, now, d);
        if !ep.bypassable {
          Empty(ep, Bypassable, now, d);
        }
      }
    }
  }

  lemma Empty(ep: Endpoint, queue: Queue, now: int, d: nat)
    requires Select(ep.queue, queue).items == []
    ensures NoneSooner(ep, queue, now, d)
  {
  }

  /** The wait of an overtaken packet. */
  function OvertakenWait(ep: Endpoint, now: int): nat
    requires Overtaken(ep)
  {
    Since(Peek(ep.queue.bypassable).value.time, now)
  }

  /**
   Exactly when one endpoint's search finds the minimum: unless it is overtaken and the
   overtaken packet is due strictly before both the trace packet and the first held packet.
   */
  lemma SideExact(ep: Endpoint, now: int, client: bool)
    requires Typed(ep.queue, client) && EarliestSide(ep, now, client).wait.In?
    ensures NoneSoonerAtAll(ep, now, EarliestSide(ep, now, client).wait.ns) <==>
              !(&& Overtaken(ep)
                && OvertakenWait(ep, now) < Since(Peek(ep.queue.base).value.time + ep.sum, now)
                && (forall e :: e in ep.queue.blocking.items ==>
                      OvertakenWait(ep, now) < WaitOf(ep, Blocking, e, now)))
  {
    SideSoonest(ep, now, client);
    var d := EarliestSide(ep, now, client).wait.ns;
    if Overtaken(ep) {
      var bb := Peek(ep.queue.bypassable).value;
      assert bb in ep.queue.bypassable.items;
      assert WaitOf(ep, Bypassable, bb, now) == OvertakenWait(ep, now);
      NonBlockingSoonest(ep, client);
      BlockingSoonest(ep);
    }
  }

  // ---------- Both endpoints ----------

  /** Without regard to blocking, the first event of an endpoint is the one PeekAny shows. */
  lemma AnySoonest(ep: Endpoint, now: int, client: bool)
    requires Typed(ep.queue, client)
    ensures var (e, queue, d) := PeekAny(ep.queue, ep.sum, now);
            && (e.None? ==> Size(ep.queue) == 0)
            && (e.Some? ==>
                  && Peek(Select(ep.queue, queue)) == e && e.value.client == client
                  && d == Since(FreeTime(e.value, queue, ep.sum), now)
                  && (e.value.event == TETunnelSent <==> queue in {Blocking, Bypassable})
                  && (e.value.bypass && e.value.event == TETunnelSent ==> queue == Bypassable)
                  && NoneSoonerAtAll(ep, now, d))
  {
    hide Typed, Peek, PeekAny, NoneSoonerAtAll;
    TypedPeeks(ep.queue, client);
    AnyFirst(ep.queue, ep.sum, now);
    EmptyPeeks(ep.queue);
    var (e, queue, d) := PeekAny(ep.queue, ep.sum, now);
    if e.Some? {
      TopsNotBefore(ep, now, FreeTime(e.value, queue, ep.sum));
    } else {
      assert forall id :: Select(ep.queue, id).items == [];
      assert Select(ep.queue, Base).items == Select(ep.queue, Internal).items == [];
      assert Select(ep.queue, Blocking).items == Select(ep.queue, Bypassable).items == [];
    }
  }

  /** If no top comes before t, nothing in the queues can be processed before t. */
  lemma TopsNotBefore(ep: Endpoint, now: int, t: int)
    requires Peek(ep.queue.base).Some? ==> t - ep.sum <= Peek(ep.queue.base).value.time
    requires Peek(ep.queue.internal).Some? ==> t <= Peek(ep.queue.internal).value.time
    requires Peek(ep.queue.blocking).Some? ==> t <= Peek(ep.queue.blocking).value.time
    requires Peek(ep.queue.bypassable).Some? ==> t <= Peek(ep.queue.bypassable).value.time
    ensures NoneSoonerAtAll(ep, now, Since(t, now))
  {
    hide Peek, NotBefore, NoneSooner;
    HeapNotBefore(ep.queue.base, t - ep.sum);
    HeapNotBefore(ep.queue.internal, t);
    HeapNotBefore(ep.queue.blocking, t);
    HeapNotBefore(ep.queue.bypassable, t);
    NotBeforeWaits(ep, Base, now, t);
    NotBeforeWaits(ep, Internal, now, t);
    NotBeforeWaits(ep, Blocking, now, t);
    NotBeforeWaits(ep, Bypassable, now, t);
  }

  /** PeekAny takes the first of the four tops. */
  lemma AnyFirst(q: Queues, sum: nat, now: int)
    ensures var (e, queue, d) := PeekAny(q, sum, now);
            && (e.None? ==> forall id :: Peek(Select(q, id)).None?)
            && (e.Some? ==>
                  && Peek(Select(q, queue)) == e
                  && d == Since(FreeTime(e.value, queue, sum), now)
                  && var t := FreeTime(e.value, queue, sum);
                     && (Peek(q.base).Some? ==> t - sum <= Peek(q.base).value.time)
                     && (Peek(q.internal).Some? ==> t <= Peek(q.internal).value.time)
                     && (Peek(q.blocking).Some? ==> t <= Peek(q.blocking).value.time)
                     && (Peek(q.bypassable).Some? ==> t <= Peek(q.bypassable).value.time))
  {
    EmptyPeeks(q);
    hide Peek, Rank;
  }

  lemma HeapNotBefore(h: Heap, t: int)
    requires Peek(h).Some? ==> t <= Peek(h).value.time
    ensures NotBefore(h, t)
  {
  }

  lemma EmptyPeeks(q: Queues)
    ensures forall id :: Peek(Select(q, id)).None? <==> Select(q, id).items == []
  {
  }

  lemma TypedPeeks(q: Queues, client: bool)
    requires Typed(q, client)
    ensures forall id :: Peek(Select(q, id)).Some? ==>
              Home(Peek(Select(q, id)).value) == id && Peek(Select(q, id)).value.client == client
  {
  }

  /** The first event of both endpoints, without regard to blocking. */
  lemma BothSoonest(s: Sim, now: int)
    requires TypedSim(s) && Size(s.client.queue) + Size(s.server.queue) > 0
    ensures var (e, queue, d) := PeekBoth(s, now);
            && e.Some?
            && NoneSoonerAtAll(s.client, now, d) && NoneSoonerAtAll(s.server, now, d)
            && var ep := At(s, e.value.client);
               && Peek(Select(ep.queue, queue)) == e
               && d == Since(FreeTime(e.value, queue, ep.sum), now)
               && (e.value.event == TETunnelSent <==> queue in {Blocking, Bypassable})
               && (e.value.bypass && e.value.event == TETunnelSent ==> queue == Bypassable)
  {
    AnySoonest(s.client, now, true);
    AnySoonest(s.server, now, false);
    hide Typed, PeekAny, Peek, NoneSooner;
    var (c, _, cd) := PeekAny(s.client.queue, s.client.sum, now);
    var (v, _, vd) := PeekAny(s.server.queue, s.server.sum, now);
    var (_, _, d) := PeekBoth(s, now);
    AllLater(s.client, now, d, cd, c.Some?);
    AllLater(s.server, now, d, vd, v.Some?);
  }

  lemma AllLater(ep: Endpoint, now: int, d: nat, d': nat, some: bool)
    requires if some then NoneSoonerAtAll(ep, now, d') && d <= d' else Size(ep.queue) == 0
    ensures NoneSoonerAtAll(ep, now, d)
  {
  }

  /** Unless the selector has to search both endpoints, its pick is never too late. */
  predicate Searches(s: Sim, earliest: Wait, now: int) {
    var (e, _, wait) := PeekBoth(s, now);
    && e.Some? && AtMost(In(wait), earliest)
    && e.value.event == TETunnelSent
    && At(s, e.value.client).until.Some?
    && !(At(s, e.value.client).bypassable && e.value.bypass)
  }

  /**
   The selector refines the naive minimum. An answer names a top that can be processed after
   exactly the wait; no base, internal or held event of either endpoint comes sooner, and no
   event at all of an endpoint that is not overtaken, or if no search was needed. The answer
   Never means that every event waits longer than the earliest other thing.
   */
  lemma SelectorRefinesMinimum(s: Sim, earliest: Wait, now: int)
    requires TypedSim(s)
    ensures var p := PeekQueue(s, earliest, now);
            && (p.wait.Never? ==>
                  || Size(s.client.queue) + Size(s.server.queue) == 0
                  || (earliest.In? && NoneSoonerAtAll(s.client, now, earliest.ns + 1)
                                   && NoneSoonerAtAll(s.server, now, earliest.ns + 1)))
            && (p.wait.In? ==>
                  && Names(s, p, now)
                  && NoneSoonerUnlessBypassing(s.client, now, p.wait.ns)
                  && NoneSoonerUnlessBypassing(s.server, now, p.wait.ns)
                  && (!Searches(s, earliest, now) || !Overtaken(s.client) ==>
                        NoneSoonerAtAll(s.client, now, p.wait.ns))
                  && (!Searches(s, earliest, now) || !Overtaken(s.server) ==>
                        NoneSoonerAtAll(s.server, now, p.wait.ns)))
  {
    hide PeekQueue, TypedSim, Peek, PeekBoth, EarliestSide, Overtaken, NoneSoonerAtAll, NoneSoonerUnlessBypassing, Rank;
    if Size(s.client.queue) + Size(s.server.queue) > 0 {
      BothSoonest(s, now);
      PickCases(s, earliest, now);
      var (e, queue, wait) := PeekBoth(s, now);
      AllButBypassing(s.client, now);
      AllButBypassing(s.server, now);
      if !AtMost(In(wait), earliest) {
        AllLater(s.client, now, earliest.ns + 1, wait, true);
        AllLater(s.server, now, earliest.ns + 1, wait, true);
      } else if Searches(s, earliest, now) {
        SearchSoonest(s, now);
      } else {
        TopIsFree(At(s, e.value.client), queue, e.value, now, wait);
      }
    } else {
      NothingToPick(s, earliest, now);
    }
  }

  lemma NothingToPick(s: Sim, earliest: Wait, now: int)
    requires Size(s.client.queue) + Size(s.server.queue) == 0
    ensures PeekQueue(s, earliest, now).wait.Never?
  {
    hide PeekBoth, EarliestSide;
  }

  lemma AllButBypassing(ep: Endpoint, now: int)
    ensures forall d :: NoneSoonerAtAll(ep, now, d) ==> NoneSoonerUnlessBypassing(ep, now, d)
  {
    hide NoneSooner;
  }

  /** An overtaken packet could go before d has passed. */
  predicate Beats(ep: Endpoint, now: int, d: nat) {
    Overtaken(ep) && OvertakenWait(ep, now) < d
  }

  /** The pick is the minimum unless it is later than an overtaken packet. */
  lemma MinimumUnlessBeaten(s: Sim, earliest: Wait, now: int)
    requires TypedSim(s) && PeekQueue(s, earliest, now).wait.In?
    ensures var d := PeekQueue(s, earliest, now).wait.ns;
            NoneSoonerAtAll(s.client, now, d) && NoneSoonerAtAll(s.server, now, d) <==>
              !Beats(s.client, now, d) && !Beats(s.server, now, d)
  {
    hide PeekQueue, NoneSoonerAtAll, NoneSoonerUnlessBypassing, Beats;
    SelectorRefinesMinimum(s, earliest, now);
    var d := PeekQueue(s, earliest, now).wait.ns;
    BeatenOrSoonest(s.client, now, d);
    BeatenOrSoonest(s.server, now, d);
  }

  /**
   The packet of the overtaken endpoint `ep` is alone in front: every base, internal and held
   event of both endpoints waits longer, and so does every bypassing one of the other endpoint,
   unless that is overtaken as well.
   */
  ghost predicate InFront(ep: Endpoint, other: Endpoint, now: int) {
    && Overtaken(ep)
    && var w := OvertakenWait(ep, now);
       && NoneSoonerUnlessBypassing(ep, now, w + 1)
       && NoneSoonerUnlessBypassing(other, now, w + 1)
       && (!Overtaken(other) ==> NoneSooner(other, Bypassable, now, w + 1))
  }

  /**
   Exactly when the selector's pick is the minimum over every queued event, by what is in the
   queues before the call: unless it has to search while the packet of an overtaken endpoint is
   in front of everything.
   */
  lemma SelectorExact(s: Sim, earliest: Wait, now: int)
    requires TypedSim(s) && PeekQueue(s, earliest, now).wait.In?
    ensures var d := PeekQueue(s, earliest, now).wait.ns;
            NoneSoonerAtAll(s.client, now, d) && NoneSoonerAtAll(s.server, now, d) <==>
              !(&& Searches(s, earliest, now)
                && (InFront(s.client, s.server, now) || InFront(s.server, s.client, now)))
  {
    hide PeekQueue, NoneSoonerAtAll, NoneSoonerUnlessBypassing, NoneSooner, Overtaken, OvertakenWait, Searches;
    MinimumUnlessBeaten(s, earliest, now);
    SelectorRefinesMinimum(s, earliest, now);
    var d := PeekQueue(s, earliest, now).wait.ns;
    if Searches(s, earliest, now) {
      BeatsInFront(s.client, s.server, now, d);
      BeatsInFront(s.server, s.client, now, d);
      if InFront(s.client, s.server, now) {
        InFrontBeats(s, earliest, now, true);
      }
      if InFront(s.server, s.client, now) {
        InFrontBeats(s, earliest, now, false);
      }
    }
  }

  lemma BeatsInFront(ep: Endpoint, other: Endpoint, now: int, d: nat)
    requires NoneSoonerUnlessBypassing(ep, now, d) && NoneSoonerUnlessBypassing(other, now, d)
    requires !Overtaken(other) ==> NoneSoonerAtAll(other, now, d)
    ensures Beats(ep, now, d) ==> InFront(ep, other, now)
  {
    hide Overtaken, OvertakenWait, WaitOf;
  }

  /** An overtaken endpoint's search never picks its bypassing packet. */
  lemma OvertakenIsPassedOver(ep: Endpoint, now: int, client: bool)
    requires Overtaken(ep)
    ensures EarliestSide(ep, now, client).queue != Bypassable
  {
    hide Peek, Rank;
  }

  /** What a search of both endpoints picks waits longer than the packet in front. */
  lemma InFrontBeats(s: Sim, earliest: Wait, now: int, client: bool)
    requires TypedSim(s) && Searches(s, earliest, now) && PeekQueue(s, earliest, now).wait.In?
    requires InFront(At(s, client), At(s, !client), now)
    ensures Beats(At(s, client), now, PeekQueue(s, earliest, now).wait.ns)
  {
    hide PeekQueue, EarliestSide, TypedSim, Overtaken, OvertakenWait, Searches;
    SelectorRefinesMinimum(s, earliest, now);
    SearchPicks(s, earliest, now);
    var p := PeekQueue(s, earliest, now);
    var ep := At(s, p.client);
    if Overtaken(ep) {
      OvertakenIsPassedOver(ep, now, p.client);
    }
    var top := Peek(Select(ep.queue, p.queue)).value;
    assert top in Select(ep.queue, p.queue).items;
  }

  /** A search picks one of the two endpoints' answers. */
  lemma SearchPicks(s: Sim, earliest: Wait, now: int)
    requires TypedSim(s) && Searches(s, earliest, now)
    ensures var p := PeekQueue(s, earliest, now);
            p == EarliestSide(At(s, p.client), now, p.client) || p.wait.Never?
  {
    hide EarliestSide, PeekBoth, TypedSim;
    if Size(s.client.queue) + Size(s.server.queue) > 0 {
      PickCases(s, earliest, now);
      SideOfClient(s.client, now, true);
      SideOfClient(s.server, now, false);
    }
  }

  lemma SideOfClient(ep: Endpoint, now: int, client: bool)
    ensures EarliestSide(ep, now, client).client == client
  {
  }

  lemma BeatenOrSoonest(ep: Endpoint, now: int, d: nat)
    requires NoneSoonerUnlessBypassing(ep, now, d) && (!Overtaken(ep) ==> NoneSoonerAtAll(ep, now, d))
    ensures NoneSoonerAtAll(ep, now, d) <==> !Beats(ep, now, d)
  {
    if Overtaken(ep) {
      hide Peek;
      var first := Peek(ep.queue.bypassable).value;
      assert first in ep.queue.bypassable.items && WaitOf(ep, Bypassable, first, now) == OvertakenWait(ep, now);
      HeapNotBefore(ep.queue.bypassable, first.time);
      NotBeforeWaits(ep, Bypassable, now, first.time);
    }
  }

  /** The branches of the selector. */
  lemma PickCases(s: Sim, earliest: Wait, now: int)
    requires Size(s.client.queue) + Size(s.server.queue) > 0
    ensures var (e, queue, wait) := PeekBoth(s, now);
            var c := EarliestSide(s.client, now, true);
            var v := EarliestSide(s.server, now, false);
            PeekQueue(s, earliest, now) ==
              if e.None? || !AtMost(In(wait), earliest) then Pick(Never, Blocking, false)
              else if Searches(s, earliest, now) then (if AtMost(c.wait, v.wait) then c else v)
              else Pick(In(wait), queue, e.value.client)
  {
    hide PeekAny, PeekBlocking, PeekNonBlocking;
  }

  /** A top that blocking does not hold back can be processed when its time has come. */
  lemma TopIsFree(ep: Endpoint, queue: Queue, e: SimEvent, now: int, wait: nat)
    requires Peek(Select(ep.queue, queue)) == Some(e) && wait == Since(FreeTime(e, queue, ep.sum), now)
    requires e.event == TETunnelSent <==> queue in {Blocking, Bypassable}
    requires e.bypass && e.event == TETunnelSent ==> queue == Bypassable
    requires e.event != TETunnelSent || ep.until.None? || (ep.bypassable && e.bypass)
    ensures Select(ep.queue, queue).items != [] && WaitOf(ep, queue, e, now) == wait
  {
  }

  /** The search of both endpoints, as in the last branch of the selector. */
  lemma SearchSoonest(s: Sim, now: int)
    requires TypedSim(s) && Size(s.client.queue) + Size(s.server.queue) > 0
    ensures var c := EarliestSide(s.client, now, true);
            var v := EarliestSide(s.server, now, false);
            var p := if AtMost(c.wait, v.wait) then c else v;
            && p.wait.In? && Names(s, p, now)
            && NoneSoonerUnlessBypassing(s.client, now, p.wait.ns)
            && NoneSoonerUnlessBypassing(s.server, now, p.wait.ns)
            && (!Overtaken(s.client) ==> NoneSoonerAtAll(s.client, now, p.wait.ns))
            && (!Overtaken(s.server) ==> NoneSoonerAtAll(s.server, now, p.wait.ns))
  {
    SideSoonest(s.client, now, true);
    SideSoonest(s.server, now, false);
    var c := EarliestSide(s.client, now, true);
    var v := EarliestSide(s.server, now, false);
    var p := if AtMost(c.wait, v.wait) then c else v;
    hide Typed, Peek, EarliestSide, Overtaken, NoneSooner;
    SideLater(s.client, c, now, p.wait.ns);
    SideLater(s.server, v, now, p.wait.ns);
  }

  lemma SideLater(ep: Endpoint, p: Pick, now: int, d: nat)
    requires if p.wait.In? then SideAnswer(ep, p.queue, now, p.wait.ns) && d <= p.wait.ns else Size(ep.queue) == 0
    ensures NoneSooner(ep, Base, now, d) && NoneSooner(ep, Internal, now, d) && NoneSooner(ep, Blocking, now, d)
    ensures !Overtaken(ep) ==> NoneSooner(ep, Bypassable, now, d)
  {
    hide Overtaken;
  }

  /** Endpoints without delay sum, the common case, are never overtaken. */
  lemma NoDelaySumNotOvertaken(ep: Endpoint)
    requires ep.sum == 0
    ensures !Overtaken(ep)
  {
  }
}
