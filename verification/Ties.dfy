/** Which of several events that could come next at the same time the selector takes. */
module Ties {
  import opened Prelude
  import opened Machines
  import opened SimEvents
  import opened Queues
  import opened SimState
  import opened Selector

  /** The first event of a heap, a trace packet at the time at which it is due. */
  function FirstOf(q: Queues, id: Queue, sum: nat): Option<SimEvent> {
    match id
    case Base => if Peek(q.base).None? then None else Some(Peek(q.base).value.(time := Peek(q.base).value.time + sum))
    case Bypassable => Peek(q.bypassable)
    case Blocking => Peek(q.blocking)
    case Internal => Peek(q.internal)
  }

  /** Of these heaps, in this order, the one named is the first whose first event no other's precedes. */
  ghost predicate NamesFirst(q: Queues, sum: nat, order: seq<Queue>, id: Queue) {
    exists k :: 0 <= k < |order| && order[k] == id && Leads(q, sum, order, k)
  }

  ghost predicate Leads(q: Queues, sum: nat, order: seq<Queue>, k: nat)
    requires k < |order|
  {
    var first := FirstOf(q, order[k], sum);
    && first.Some?
    && (forall j :: 0 <= j < k ==>
          var other := FirstOf(q, order[j], sum);
          other.Some? ==> Earlier(first.value, other.value))
    && (forall j :: k < j < |order| ==>
          var other := FirstOf(q, order[j], sum);
          other.Some? ==> !Earlier(other.value, first.value))
  }

  /** Over all heaps: trace packets before bypassing ones, those before held ones, and the rest last. */
  lemma AnyInOrder(q: Queues, sum: nat, now: int)
    ensures var (e, id, wait) := PeekAny(q, sum, now);
            if e.None? then Size(q) == 0
            else
              && NamesFirst(q, sum, [Base, Bypassable, Blocking, Internal], id)
              && e == Peek(Select(q, id))
              && wait == Since(FirstOf(q, id, sum).value.time, now)
  {
    hide Peek;
    AllPeeks(q);
    var (e, id, wait) := PeekAny(q, sum, now);
    if e.Some? {
      var order := [Base, Bypassable, Blocking, Internal];
      var k := match id case Base => 0 case Bypassable => 1 case Blocking => 2 case Internal => 3;
      assert order[k] == id && Leads(q, sum, order, k);
    }
  }

  lemma AllPeeks(q: Queues)
    ensures Size(q) == 0 <==>
            Peek(q.base).None? && Peek(q.bypassable).None? && Peek(q.blocking).None? && Peek(q.internal).None?
  {
  }

  /** What blocking does not hold back: trace packets before the rest. */
  lemma UnblockedInOrder(q: Queues, sum: nat)
    ensures var (e, id) := PeekUnblocked(q, sum);
            if e.None? then Peek(q.base).None? && Peek(q.internal).None?
            else NamesFirst(q, sum, [Base, Internal], id) && e == Peek(Select(q, id))
  {
    hide Peek;
    var (e, id) := PeekUnblocked(q, sum);
    if e.Some? {
      var order := [Base, Internal];
      var k := if id == Base then 0 else 1;
      assert order[k] == id && Leads(q, sum, order, k);
    }
  }

  /** With a bypassable blocking, a bypassing packet only if it is strictly first. */
  lemma NonBlockingInOrder(q: Queues, bypassable: bool, sum: nat)
    ensures var (u, uid) := PeekUnblocked(q, sum);
            var (e, id) := PeekNonBlocking(q, bypassable, sum);
            var p := Peek(q.bypassable);
            if bypassable && p.Some? && (u.None? || Earlier(p.value, u.value)) then e == p && id == Bypassable
            else e == u && id == uid
  {
  }

  /** What blocking holds back: bypassing packets first, unless blocking lets them through. */
  lemma HeldInOrder(q: Queues, bypassable: bool)
    ensures var (e, id) := PeekBlocking(q, bypassable);
            var order := if bypassable then [Blocking] else [Bypassable, Blocking];
            if e.None? then Peek(q.blocking).None? && (bypassable || Peek(q.bypassable).None?)
            else NamesFirst(q, 0, order, id) && e == Peek(Select(q, id))
  {
    hide Peek;
    var (e, id) := PeekBlocking(q, bypassable);
    if e.Some? {
      var order := if bypassable then [Blocking] else [Bypassable, Blocking];
      var k := if order[0] == id then 0 else 1;
      assert order[k] == id && Leads(q, 0, order, k);
    }
  }

  /** The client answers, unless the server has to wait less, or as long for an event of lower rank. */
  lemma ClientFirst(s: Sim, now: int)
    ensures var (c, cid, cwait) := PeekAny(s.client.queue, s.client.sum, now);
            var (v, vid, vwait) := PeekAny(s.server.queue, s.server.sum, now);
            PeekBoth(s, now)
            == if v.Some? && (c.None? || vwait < cwait || (vwait == cwait && Rank(v.value.event) < Rank(c.value.event)))
               then (v, vid, vwait) else (c, cid, cwait)
  {
    hide Peek, Size;
  }

  /**
   One endpoint: a packet that blocking holds back is due at its own time or at the end of blocking.
   It is taken before whatever is due later, and, at the same time, before all but a trace packet.
   */
  lemma HeldOrFree(ep: Endpoint, now: int, client: bool)
    ensures var (b, bid) := PeekBlocking(ep.queue, ep.bypassable);
            var (n, nid) := PeekNonBlocking(ep.queue, ep.bypassable, ep.sum);
            var p := EarliestSide(ep, now, client);
            p.client == client &&
            if b.None? && n.None? then p.wait == Never
            else
              var held := if b.None? then 0
                          else if ep.until.Some? then Max(b.value.time, ep.until.value) else Max(b.value.time, now);
              var free := if n.None? then 0 else if nid == Base then n.value.time + ep.sum else n.value.time;
              var first := b.Some? && (n.None? || held < free || (held == free && nid != Base));
              p.queue == (if first then bid else nid) && p.wait == In(Since(if first then held else free, now))
  {
  }

  /** The two endpoints are searched only if the first event of all is a packet that blocking holds back. */
  lemma SearchOfBoth(s: Sim, earliest: Wait, now: int)
    ensures var (e, id, wait) := PeekBoth(s, now);
            var r := PeekQueue(s, earliest, now);
            var c, v := EarliestSide(s.client, now, true), EarliestSide(s.server, now, false);
            if Size(s.client.queue) + Size(s.server.queue) == 0 || e.None? then r.wait == Never
            else if earliest.In? && earliest.ns < wait then r.wait == Never
            else
              var ep := At(s, e.value.client);
              if e.value.event == TETunnelSent && ep.until.Some? && !(ep.bypassable && e.value.bypass) then
                r == if v.wait.In? && (c.wait.Never? || v.wait.ns < c.wait.ns) then v else c
              else r == Pick(In(wait), id, e.value.client)
  {
    hide EarliestSide, PeekBoth;
  }
}
