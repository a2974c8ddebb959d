/** Simulator events, their order, and the priority queues that hold them. */
module SimEvents {
  import opened Prelude
  import opened Machines

  /** Instants are integer nanoseconds, durations natural-number nanoseconds. */
  datatype SimEvent = SimEvent(event: TriggerEvent, time: int, delay: nat, client: bool,
                               padding: bool, bypass: bool, replace: bool)

  /** Sorting rank of events at equal times: tunnel before normal before padding, begin before end. */
  function Rank(e: TriggerEvent): nat {
    match e
    case TETunnelSent => 0
    case TENormalSent => 1
    case TEPaddingSent(_) => 2
    case TETunnelRecv => 3
    case TENormalRecv => 4
    case TEPaddingRecv => 5
    case TEBlockingBegin(_) => 6
    case TEBlockingEnd => 7
    case TETimerBegin(_) => 8
    case TETimerEnd(_) => 9
  }

  predicate Earlier(a: SimEvent, b: SimEvent) {
    a.time < b.time || (a.time == b.time && Rank(a.event) < Rank(b.event))
  }

  /** The heap's `>` on optional events: the earlier event is the greater one, and any event beats none. */
  predicate Sooner(a: Option<SimEvent>, b: Option<SimEvent>) {
    a.Some? && (b.None? || Earlier(a.value, b.value))
  }

  /**
   A binary heap, up to the order of equal elements: `tie` is an arbitrary rule that names
   the element on top, heeded whenever it names one that nothing precedes. It may look at
   the contents and at how many operations the heap has seen.
   */
  datatype Heap = Heap(items: seq<SimEvent>, ops: nat, tie: (nat, seq<SimEvent>) -> nat)

  predicate IsFirst(items: seq<SimEvent>, k: nat) {
    k < |items| && forall i :: 0 <= i < |items| ==> !Earlier(items[i], items[k])
  }

  function FirstIn(items: seq<SimEvent>): (k: nat)
    requires items != []
    ensures IsFirst(items, k)
  {
    var last := |items| - 1;
    if last == 0 then 0
    else
      var k := FirstIn(items[..last]);
      assert forall i :: 0 <= i < last ==> items[..last][i] == items[i];
      if Earlier(items[last], items[k]) then last else k
  }

  function Top(h: Heap): (k: nat)
    requires h.items != []
    ensures IsFirst(h.items, k)
  {
    var k := h.tie(h.ops, h.items);
    if IsFirst(h.items, k) then k else FirstIn(h.items)
  }

  function Peek(h: Heap): (r: Option<SimEvent>)
    ensures r.None? <==> h.items == []
    ensures r.Some? ==> r.value in h.items && forall e :: e in h.items ==> !Earlier(e, r.value)
  {
    if h.items == [] then None
    else
      assert forall e :: e in h.items ==> exists i :: 0 <= i < |h.items| && h.items[i] == e;
      Some(h.items[Top(h)])
  }

  function Push(h: Heap, e: SimEvent): Heap {
    h.(items := h.items + [e], ops := h.ops + 1)
  }

  function RemoveAt(items: seq<SimEvent>, k: nat): seq<SimEvent>
    requires k < |items|
  {
    items[..k] + items[k + 1..]
  }

  function Pop(h: Heap): Heap
    requires h.items != []
  {
    h.(items := RemoveAt(h.items, Top(h)), ops := h.ops + 1)
  }

  /** Popping removes exactly the event that peeking shows. */
  lemma PopRemovesPeek(h: Heap)
    requires h.items != []
    ensures multiset(h.items) == multiset(Pop(h).items) + multiset{Peek(h).value}
    ensures forall e :: e in Pop(h).items ==> e in h.items
  {
    var k := Top(h);
    assert h.items == h.items[..k] + [h.items[k]] + h.items[k + 1..];
  }

  // ---------- Counting ----------

  /**
   The kinds of event that conservation laws count, per endpoint. Carries: a trace packet that
   this endpoint sends, on its way. Arrives: such a packet coming out of the tunnel on the other
   side. Bypasses: a packet allowed to bypass blocking. BypassPadding: padding sent to bypass.
   With a time: Sends, a packet on its way into the tunnel; Enters, it enters; Comes, a packet
   comes out at the client; SendsTrace, EntersTrace and ComesTrace are the same for packets of
   the trace alone, without padding. Effort weighs an event by the steps of its packet still to come.
   Padding and PaddingArrives: padding on its way from this endpoint, and coming out at it. The rest
   is what is reported to the framework there: a timer of a machine begins or ends, an action of a
   machine is performed, padding or a normal packet was received.
   */
  datatype Kind =
    | Carries(client: bool)
    | Arrives(client: bool)
    | Bypasses(client: bool)
    | BypassPadding(client: bool)
    | Sends(client: bool, time: int)
    | Enters(client: bool, time: int)
    | Comes(time: int)
    | SendsTrace(client: bool, time: int)
    | EntersTrace(client: bool, time: int)
    | ComesTrace(time: int)
    | Effort
    | Padding(client: bool)
    | PaddingArrives(client: bool)
    | TimerBegins(client: bool, machine: nat)
    | TimerEnds(client: bool, machine: nat)
    | Performs(client: bool, machine: nat)
    | ReportsPadding(client: bool)
    | ReportsNormal(client: bool)

  predicate Is(e: SimEvent, k: Kind) {
    match k
    case Carries(client) =>
      || (e.client == client && (e.event == TENormalSent || e.event == TETunnelSent) && !e.padding)
      || (e.client != client && e.event == TETunnelRecv && !e.padding)
    case Arrives(client) => e.client != client && e.event == TETunnelRecv && !e.padding
    case Bypasses(client) => e.client == client && e.event == TETunnelSent && e.bypass
    case BypassPadding(client) => e.client == client && e.event.TEPaddingSent? && e.bypass
    case Sends(client, time) =>
      e.client == client && (e.event == TENormalSent || e.event == TETunnelSent) && e.time == time
    case Enters(client, time) => e.client == client && e.event == TETunnelSent && e.time == time
    case Comes(time) => e.client && e.event == TETunnelRecv && e.time == time
    case SendsTrace(client, time) =>
      e.client == client && (e.event == TENormalSent || e.event == TETunnelSent) && !e.padding && e.time == time
    case EntersTrace(client, time) => e.client == client && e.event == TETunnelSent && !e.padding && e.time == time
    case ComesTrace(time) => e.client && e.event == TETunnelRecv && !e.padding && e.time == time
    case Effort => true
    case Padding(client) =>
      e.padding && if e.client == client then e.event == TETunnelSent else e.event == TETunnelRecv
    case PaddingArrives(client) => e.client == client && e.event == TETunnelRecv && e.padding
    case TimerBegins(client, machine) => e.client == client && e.event == TETimerBegin(machine)
    case TimerEnds(client, machine) => e.client == client && e.event == TETimerEnd(machine)
    case Performs(client, machine) =>
      e.client == client && (e.event == TEPaddingSent(machine) || e.event == TEBlockingBegin(machine))
    case ReportsPadding(client) => e.client == client && e.event == TEPaddingRecv
    case ReportsNormal(client) => e.client == client && e.event == TENormalRecv
  }

  /** Kinds of what is reported. */
  predicate OfReports(k: Kind) {
    k.TimerBegins? || k.TimerEnds? || k.Performs? || k.ReportsPadding? || k.ReportsNormal?
  }

  /** Kinds that count packets on their way only. */
  predicate OfPackets(k: Kind) {
    !k.BypassPadding? && !k.Effort? && !OfReports(k)
  }

  /** Kinds that do not depend on the event's time. */
  predicate Timeless(k: Kind) {
    || k.Carries? || k.Arrives? || k.Bypasses? || k.BypassPadding? || k.Padding? || k.PaddingArrives? || OfReports(k)
  }

  function One(e: SimEvent, k: Kind): nat {
    if k.Effort? then Steps(e.event) else if Is(e, k) then 1 else 0
  }

  /** How often the loop will process something for the packet of this event. */
  function Steps(e: TriggerEvent): nat {
    match e
    case TENormalSent => 4
    case TETunnelSent => 3
    case TETunnelRecv => 2
    case _ => 1
  }

  function Tally(items: seq<SimEvent>, k: Kind): nat {
    if items == [] then 0 else Tally(items[..|items| - 1], k) + One(items[|items| - 1], k)
  }

  lemma TallyAppend(items: seq<SimEvent>, e: SimEvent, k: Kind)
    ensures Tally(items + [e], k) == Tally(items, k) + One(e, k)
  {
    assert (items + [e])[..|items|] == items;
  }

  lemma {:induction false} TallyRemove(items: seq<SimEvent>, i: nat, k: Kind)
    requires i < |items|
    ensures Tally(items, k) == Tally(RemoveAt(items, i), k) + One(items[i], k)
  {
    var last := |items| - 1;
    if i < last {
      TallyRemove(items[..last], i, k);
      assert RemoveAt(items, i) == RemoveAt(items[..last], i) + [items[last]];
      TallyAppend(RemoveAt(items[..last], i), items[last], k);
    } else {
      assert RemoveAt(items, i) == items[..last];
    }
  }

  lemma TallyPop(h: Heap, k: Kind)
    requires h.items != []
    ensures Tally(h.items, k) == Tally(Pop(h).items, k) + One(Peek(h).value, k)
  {
    TallyRemove(h.items, Top(h), k);
  }

  /** Where no event is of the kind, the tally is zero. */
  lemma {:induction false} TallyNone(items: seq<SimEvent>, k: Kind)
    requires forall e :: e in items ==> One(e, k) == 0
    ensures Tally(items, k) == 0
  {
    if items != [] {
      TallyNone(items[..|items| - 1], k);
    }
  }
}
