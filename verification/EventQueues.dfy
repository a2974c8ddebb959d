/** One endpoint's queue as the source writes it: an object holding the four heaps. */
module EventQueues {
  import opened Prelude
  import opened Machines
  import opened SimEvents
  import opened Queues
  import opened Selector

  class EventQueue {
    var base: Heap
    var blocking: Heap
    var bypassable: Heap
    var internal: Heap

    function Value(): Queues
      reads this
    {
      Queues(base, blocking, bypassable, internal)
    }

    constructor (q: Queues)
      ensures Value() == q
    {
      base, blocking, bypassable, internal := q.base, q.blocking, q.bypassable, q.internal;
    }

    /** Every event goes to its home heap. */
    method Add(item: SimEvent)
      modifies this
      ensures Value() == Enqueue(old(Value()), item)
    {
      match item.event
      case TETunnelSent =>
        if item.bypass {
          bypassable := Push(bypassable, item);
        } else {
          blocking := Push(blocking, item);
        }
      case TENormalSent => base := Push(base, item);
      case _ => internal := Push(internal, item);
    }

    /** Remove the top of a heap; a base event comes out shifted by the delay sum. */
    method Remove(id: Queue, sum: nat) returns (item: Option<SimEvent>)
      modifies this
      ensures item.None? <==> Select(old(Value()), id).items == []
      ensures item.None? ==> Value() == old(Value())
      ensures item.Some? ==> (Value(), item.value) == Dequeue(old(Value()), id, sum)
    {
      item := Peek(Select(Value(), id));
      if item.None? {
        return;
      }
      match id
      case Blocking => blocking := Pop(blocking);
      case Bypassable => bypassable := Pop(bypassable);
      case Internal => internal := Pop(internal);
      case Base =>
        base := Pop(base);
        item := Some(item.value.(time := item.value.time + sum));
    }

    /** The first event, blocked or not: on ties base, then bypassable, blocking and internal. */
    method First(sum: nat, now: int) returns (first: Option<SimEvent>, q: Queue, wait: nat)
      ensures (first, q, wait) == PeekAny(Value(), sum, now)
    {
      hide Peek, Sooner, ShiftedFirst;
      if Size(Value()) == 0 {
        return None, Blocking, 0;
      }
      first, q := Peek(bypassable), Bypassable;
      var n := Peek(blocking);
      if Sooner(n, first) {
        first, q := n, Blocking;
      }
      n := Peek(internal);
      if Sooner(n, first) {
        first, q := n, Internal;
      }
      n := Peek(base);
      FirstExists(Value(), sum, now);
      if ShiftedFirst(n, first, sum) {
        first, q, wait := n, Base, Since(n.value.time + sum, now);
      } else {
        wait := Since(first.value.time, now);
      }
    }
  }

  lemma FirstExists(q: Queues, sum: nat, now: int)
    ensures Size(q) > 0 ==> PeekAny(q, sum, now).0.Some?
    ensures ShiftedFirst(Peek(q.base), None, sum) ==> Peek(q.base).Some?
  {
    AnyFirst(q, sum, now);
    EmptyPeeks(q);
    hide Peek, PeekAny;
    assert (forall id :: Peek(Select(q, id)).None?) ==> (forall id :: Select(q, id).items == []);
    assert Size(q) == |Select(q, Blocking).items| + |Select(q, Bypassable).items|
                      + |Select(q, Internal).items| + |Select(q, Base).items|;
  }
}
