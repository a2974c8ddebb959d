/** The four event heaps of one endpoint. */
module Queues {
  import opened Prelude
  import opened Machines
  import opened SimEvents

  datatype Queue = Blocking | Bypassable | Internal | Base

  /** base: trace packets; blocking and bypassable: packets waiting to enter the tunnel; internal: the rest. */
  datatype Queues = Queues(base: Heap, blocking: Heap, bypassable: Heap, internal: Heap)

  function Select(q: Queues, id: Queue): Heap {
    match id
    case Blocking => q.blocking
    case Bypassable => q.bypassable
    case Internal => q.internal
    case Base => q.base
  }

  function With(q: Queues, id: Queue, h: Heap): Queues {
    match id
    case Blocking => q.(blocking := h)
    case Bypassable => q.(bypassable := h)
    case Internal => q.(internal := h)
    case Base => q.(base := h)
  }

  /** The heap an event belongs to. */
  function Home(e: SimEvent): Queue {
    match e.event
    case TETunnelSent => if e.bypass then Bypassable else Blocking
    case TENormalSent => Base
    case _ => Internal
  }

  function Enqueue(q: Queues, e: SimEvent): Queues {
    With(q, Home(e), Push(Select(q, Home(e)), e))
  }

  function Size(q: Queues): nat {
    |q.blocking.items| + |q.bypassable.items| + |q.internal.items| + |q.base.items|
  }

  /** Remove the top of a heap; base events come out shifted by the delay sum. */
  function Dequeue(q: Queues, id: Queue, sum: nat): (Queues, SimEvent)
    requires Select(q, id).items != []
  {
    var h := Select(q, id);
    var e := Peek(h).value;
    (With(q, id, Pop(h)), if id == Base then e.(time := e.time + sum) else e)
  }

  /** Is a, shifted by the delay sum, before or at b in the order of the heaps? */
  predicate ShiftedFirst(a: Option<SimEvent>, b: Option<SimEvent>, sum: nat) {
    a.Some? && (b.None? || !Earlier(b.value, a.value.(time := a.value.time + sum)))
  }

  /** The first event of the endpoint, blocked or not, its heap, and how long until its time. */
  function PeekAny(q: Queues, sum: nat, now: int): (Option<SimEvent>, Queue, nat) {
    if Size(q) == 0 then (None, Blocking, 0)
    else
      var (e1, q1) := (Peek(q.bypassable), Bypassable);
      var (e2, q2) := if Sooner(Peek(q.blocking), e1) then (Peek(q.blocking), Blocking) else (e1, q1);
      var (e3, q3) := if Sooner(Peek(q.internal), e2) then (Peek(q.internal), Internal) else (e2, q2);
      if ShiftedFirst(Peek(q.base), e3, sum) then
        (Peek(q.base), Base, Since(Peek(q.base).value.time + sum, now))
      else (e3, q3, Since(e3.value.time, now))
  }

  /** The first event that blocking holds back: bypassing ones too unless the blocking is bypassable. */
  function PeekBlocking(q: Queues, bypassable: bool): (Option<SimEvent>, Queue) {
    if bypassable || Sooner(Peek(q.blocking), Peek(q.bypassable)) then (Peek(q.blocking), Blocking)
    else (Peek(q.bypassable), Bypassable)
  }

  function PeekUnblocked(q: Queues, sum: nat): (Option<SimEvent>, Queue) {
    if ShiftedFirst(Peek(q.base), Peek(q.internal), sum) then (Peek(q.base), Base)
    else (Peek(q.internal), Internal)
  }

  /** The first event that blocking does not hold back; a base event is compared here by its raw time. */
  function PeekNonBlocking(q: Queues, bypassable: bool, sum: nat): (Option<SimEvent>, Queue) {
    var (n, nq) := PeekUnblocked(q, sum);
    if bypassable && Sooner(Peek(q.bypassable), n) then (Peek(q.bypassable), Bypassable) else (n, nq)
  }

  /** No trace packet is on its way any more, as the source decides it. */
  predicate NoNormalPackets(q: Queues) {
    && q.base.items == []
    && (forall e :: e in q.blocking.items ==> e.event != TETunnelSent && !e.padding)
    && (forall e :: e in q.bypassable.items ==> e.event != TETunnelSent && !e.padding)
    && (forall e :: e in q.internal.items ==> e.event != TETunnelRecv && !e.padding)
  }

  /** Every event is in its heap and belongs to the endpoint. */
  ghost predicate Typed(q: Queues, client: bool) {
    && (forall e :: e in q.base.items ==> Home(e) == Base && e.client == client && !e.padding)
    && (forall e :: e in q.blocking.items ==> Home(e) == Blocking && e.client == client)
    && (forall e :: e in q.bypassable.items ==> Home(e) == Bypassable && e.client == client)
    && (forall e :: e in q.internal.items ==> Home(e) == Internal && e.client == client)
  }

  /** No trace packet is on its way any more, as the documentation has it. */
  ghost predicate NoneOnTheWay(q: Queues) {
    && q.base.items == []
    && (forall e :: e in q.blocking.items && !e.padding ==> e.event != TETunnelSent)
    && (forall e :: e in q.bypassable.items && !e.padding ==> e.event != TETunnelSent)
    && (forall e :: e in q.internal.items && !e.padding ==> e.event != TETunnelRecv)
  }

  ghost predicate NoPadding(q: Queues) {
    && (forall e :: e in q.blocking.items ==> !e.padding)
    && (forall e :: e in q.bypassable.items ==> !e.padding)
    && (forall e :: e in q.internal.items ==> !e.padding)
  }

  /** The decision asks for more than its documentation: exactly, for no padding in the queue either. */
  lemma NoNormalMeansNoPadding(q: Queues, client: bool)
    requires Typed(q, client)
    ensures NoNormalPackets(q) <==> NoneOnTheWay(q) && NoPadding(q)
    ensures NoNormalPackets(q) ==> q.base.items == q.blocking.items == q.bypassable.items == []
  {
    Inhabited(q.blocking.items);
    Inhabited(q.bypassable.items);
  }

  lemma Inhabited(items: seq<SimEvent>)
    ensures items != [] ==> exists e :: e in items
  {
    if items != [] {
      assert items[0] in items;
    }
  }

  /** One padding packet on its way into the tunnel is enough: no trace packet is left, and it goes on. */
  lemma PaddingKeepsGoing(tie: (nat, seq<SimEvent>) -> nat) returns (q: Queues)
    ensures Typed(q, true) && NoneOnTheWay(q) && !NoNormalPackets(q)
  {
    var empty := Heap([], 0, tie);
    var padding := SimEvent(TETunnelSent, 0, 0, true, true, false, false);
    q := Queues(empty, Push(empty, padding), empty, empty);
    assert padding in q.blocking.items;
  }
}
