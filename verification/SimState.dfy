/**
 The simulator's state as one value: two endpoints with their queues, timers and blocking,
 the network between them, and the small operations that the simulator is made of.
 */
module SimState {
  import opened Prelude
  import opened Machines
  import opened SimEvents
  import opened Queues

  /** A duration, or the `Duration::MAX` that stands for none. */
  datatype Wait = In(ns: nat) | Never

  predicate AtMost(a: Wait, b: Wait) {
    b.Never? || (a.In? && a.ns <= b.ns)
  }

  function Least(a: Wait, b: Wait): Wait {
    if AtMost(a, b) then a else b
  }

  /** An action with the time at which it is due. */
  datatype Scheduled = Scheduled(action: TriggerAction, time: int)

  /** An increase of an endpoint's base delay that takes effect at a later time. */
  datatype PendingDelay = PendingDelay(time: int, delay: nat, client: bool)

  /** The heap of pending delays, ordered by time; ties as in Heap. */
  datatype DelayHeap = DelayHeap(items: seq<PendingDelay>, ops: nat, tie: (nat, seq<PendingDelay>) -> nat)

  /**
   One endpoint: its queues, one action timer and one internal timer per machine, blocking,
   the aggregate base delay of its trace packets, and the times in its bottleneck window.
   */
  datatype Endpoint = Endpoint(queue: Queues, actions: seq<Option<Scheduled>>, timers: seq<Option<int>>,
                               until: Option<int>, bypassable: bool, sum: nat, window: seq<int>)

  /** The network: one-way delay, bottleneck window, packets per window, added delay per packet above. */
  datatype Net = Net(delay: nat, window: nat, limit: nat, added: nat)

  /**
   `lags` is an arbitrary tape of integration delays (action, reporting and trigger delays),
   of which `drawn` have been read. `pushed` is history: the sum of all delays ever pushed.
   */
  datatype Sim = Sim(client: Endpoint, server: Endpoint, pending: DelayHeap, net: Net,
                     lags: nat -> nat, drawn: nat, pushed: nat)

  function At(s: Sim, client: bool): Endpoint {
    if client then s.client else s.server
  }

  function Put(s: Sim, client: bool, e: Endpoint): Sim {
    if client then s.(client := e) else s.(server := e)
  }

  function PushEvent(s: Sim, e: SimEvent): Sim {
    var ep := At(s, e.client);
    Put(s, e.client, ep.(queue := Enqueue(ep.queue, e)))
  }

  function Lag(s: Sim): (nat, Sim) {
    (s.lags(s.drawn), s.(drawn := s.drawn + 1))
  }

  // ---------- Timers ----------

  function DueTimes(actions: seq<Option<Scheduled>>): seq<Option<int>> {
    seq(|actions|, i requires 0 <= i < |actions| => if actions[i].Some? then Some(actions[i].value.time) else None)
  }

  /** The wait until the soonest time not in the past, from index k on, starting from `best`. */
  function Soonest(times: seq<Option<int>>, k: nat, now: int, best: Wait): Wait
    requires k <= |times|
    decreases |times| - k
  {
    if k == |times| then best
    else Soonest(times, k + 1, now, Sharpen(times[k], now, best))
  }

  function Sharpen(time: Option<int>, now: int, best: Wait): Wait {
    if time.Some? && time.value >= now && !AtMost(best, In(Since(time.value, now)))
    then In(Since(time.value, now)) else best
  }

  function SoonestAction(s: Sim, now: int): Wait {
    Soonest(DueTimes(s.server.actions), 0, now, Soonest(DueTimes(s.client.actions), 0, now, Never))
  }

  function SoonestTimer(s: Sim, now: int): Wait {
    Soonest(s.server.timers, 0, now, Soonest(s.client.timers, 0, now, Never))
  }

  /** The first index from k on at which the time is due. */
  function IndexOf(times: seq<Option<int>>, k: nat, target: int): (r: Option<nat>)
    requires k <= |times|
    ensures r.Some? ==> k <= r.value < |times| && times[r.value] == Some(target)
    ensures r.None? ==> forall i :: k <= i < |times| ==> times[i] != Some(target)
    decreases |times| - k
  {
    if k == |times| then None
    else if times[k] == Some(target) then Some(k)
    else IndexOf(times, k + 1, target)
  }

  /** The wait until the next end of blocking, and whose. */
  function SoonestUnblock(s: Sim, now: int): (Wait, bool) {
    match (s.client.until, s.server.until)
    case (Some(c), Some(v)) => if c < v then (In(Since(c, now)), true) else (In(Since(v, now)), false)
    case (Some(c), None) => (In(Since(c, now)), true)
    case (None, Some(v)) => (In(Since(v, now)), false)
    case (None, None) => (Never, true)
  }

  // ---------- Pending delays ----------

  predicate IsSoonest(items: seq<PendingDelay>, k: nat) {
    k < |items| && forall i :: 0 <= i < |items| ==> items[k].time <= items[i].time
  }

  function SoonestIn(items: seq<PendingDelay>): (k: nat)
    requires items != []
    ensures IsSoonest(items, k)
  {
    var last := |items| - 1;
    if last == 0 then 0
    else
      var k := SoonestIn(items[..last]);
      assert forall i :: 0 <= i < last ==> items[..last][i] == items[i];
      if items[last].time < items[k].time then last else k
  }

  function SoonestDelay(h: DelayHeap): (k: nat)
    requires h.items != []
    ensures IsSoonest(h.items, k)
  {
    var k := h.tie(h.ops, h.items);
    if IsSoonest(h.items, k) then k else SoonestIn(h.items)
  }

  function WaitForDelay(s: Sim, now: int): Wait {
    if s.pending.items == [] then Never
    else In(Since(s.pending.items[SoonestDelay(s.pending)].time, now))
  }

  function PushPending(s: Sim, d: PendingDelay): Sim {
    s.(pending := s.pending.(items := s.pending.items + [d], ops := s.pending.ops + 1))
  }

  /** What is left of `whole` once `part` of it has passed. */
  function Rest(whole: nat, part: nat): nat {
    if whole > part then whole - part else 0
  }

  /** Schedule a delay that a packet of endpoint `client` suffered at time t, for both endpoints. */
  function PushDelay(s: Sim, delay: nat, t: int, client: bool): Sim {
    var d := s.net.delay;
    var atClient := if client then Rest(4 * d, delay) else Rest(d, delay);
    var atServer := if client then Rest(3 * d, delay) else Rest(4 * d, delay);
    var s1 := PushPending(s, PendingDelay(t + atClient, delay, true));
    PushPending(s1, PendingDelay(t + atServer, delay, false)).(pushed := s.pushed + delay)
  }

  /** The soonest pending delay takes effect. */
  function PopDelay(s: Sim): Sim
    requires s.pending.items != []
  {
    var k := SoonestDelay(s.pending);
    var d := s.pending.items[k];
    var items := s.pending.items;
    var s1 := s.(pending := s.pending.(items := items[..k] + items[k + 1..], ops := s.pending.ops + 1));
    var ep := At(s1, d.client);
    Put(s1, d.client, ep.(sum := ep.sum + d.delay))
  }

  // ---------- Delays caused by blocking ----------

  const MILLISECOND := 1_000_000

  /** The latest time among the events close behind the head, from index k on. */
  function Tail(items: seq<SimEvent>, k: nat, head: int, tail: int): int
    requires k <= |items|
    decreases |items| - k
  {
    if k == |items| then tail
    else
      var t := items[k].time;
      Tail(items, k + 1, head, if Since(t, head) <= MILLISECOND && t > tail then t else tail)
  }

  function TailOf(q: Queues, head: int): int {
    if |q.blocking.items| + |q.bypassable.items| > 2 then
      Tail(q.bypassable.items, 0, head, Tail(q.blocking.items, 0, head, head))
    else head
  }

  /** Is the next trace packet, shifted, within the window behind t? */
  predicate BaseWithin(ep: Endpoint, t: int, window: nat) {
    var base := Peek(ep.queue.base);
    base.Some? && Since(base.value.time + ep.sum, t) <= window
  }

  function DelayOnExpire(ep: Endpoint, expire: int, head: SimEvent): Option<nat> {
    var tail := TailOf(ep.queue, head.time);
    if expire == tail || BaseWithin(ep, head.time, MILLISECOND) then None
    else Some(Since(expire, tail))
  }

  predicate AnyWithin(items: seq<SimEvent>, t: int, window: nat) {
    exists e :: e in items && Since(e.time, t) <= window
  }

  function DelayOnReplace(ep: Endpoint, now: int, head: SimEvent): Option<nat> {
    if || AnyWithin(ep.queue.blocking.items, head.time, 100 * MILLISECOND)
       || AnyWithin(ep.queue.bypassable.items, head.time, 100 * MILLISECOND)
       || BaseWithin(ep, head.time, MILLISECOND)
    then None
    else Some(Since(now, head.time))
  }

  /** Whether a packet held up by the bottleneck delays the trace; `sum` is the client's in the source. */
  predicate PropagatesDelay(ep: Endpoint, packet: SimEvent, sum: nat) {
    && !AnyWithin(ep.queue.blocking.items, packet.time, 100 * MILLISECOND)
    && !AnyWithin(ep.queue.bypassable.items, packet.time, 100 * MILLISECOND)
    && !BaseWithin(ep.(sum := sum), packet.time, MILLISECOND)
  }

  // ---------- The bottleneck ----------

  /** Drop the times that are more than the window in the past. */
  function Prune(times: seq<int>, now: int, window: nat): seq<int> {
    if times != [] && Since(now, times[0]) > window then Prune(times[1..], now, window) else times
  }

  function AddToWindow(times: seq<int>, now: int, window: nat): seq<int> {
    Prune(times + [now], now, window)
  }

  /** Extra delay for the packets above the limit of the window; the count is cast to u32. */
  function Congestion(net: Net, count: nat): nat {
    if count > net.limit then net.added * ((count - net.limit) % U32_RANGE) else 0
  }
}
