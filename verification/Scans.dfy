/** The loops of the source that only look: over timers, and over the packets waiting to be sent. */
module Scans {
  import opened Prelude
  import opened Machines
  import opened SimEvents
  import opened Queues
  import opened SimState

  /** The wait until the soonest of the times that are not in the past, or `best` if that is shorter. */
  method SoonestTime(times: seq<Option<int>>, now: int, best: Wait) returns (earliest: Wait)
    ensures earliest == Soonest(times, 0, now, best)
    ensures AtMost(earliest, best)
    ensures forall i :: 0 <= i < |times| && times[i].Some? && now <= times[i].value ==>
              AtMost(earliest, In(times[i].value - now))
    ensures earliest == best || exists i :: 0 <= i < |times| && times[i].Some? && now <= times[i].value
                                            && earliest == In(times[i].value - now)
  {
    earliest := best;
    for i := 0 to |times|
      invariant Soonest(times, 0, now, best) == Soonest(times, i, now, earliest)
      invariant AtMost(earliest, best)
      invariant forall k :: 0 <= k < i && times[k].Some? && now <= times[k].value ==>
                  AtMost(earliest, In(times[k].value - now))
      invariant earliest == best || exists k :: 0 <= k < i && times[k].Some? && now <= times[k].value
                                                && earliest == In(times[k].value - now)
    {
      var t := times[i];
      if t.Some? && t.value >= now && !AtMost(earliest, In(Since(t.value, now))) {
        earliest := In(Since(t.value, now));
      }
    }
  }

  method PeekScheduledTimer(client: seq<Option<int>>, server: seq<Option<int>>, now: int) returns (earliest: Wait)
    ensures earliest == Soonest(server, 0, now, Soonest(client, 0, now, Never))
  {
    earliest := SoonestTime(client, now, Never);
    earliest := SoonestTime(server, now, earliest);
  }

  method PeekScheduledAction(client: seq<Option<Scheduled>>, server: seq<Option<Scheduled>>, now: int)
    returns (earliest: Wait)
    ensures earliest == Soonest(DueTimes(server), 0, now, Soonest(DueTimes(client), 0, now, Never))
  {
    earliest := SoonestTime(DueTimes(client), now, Never);
    earliest := SoonestTime(DueTimes(server), now, earliest);
  }

  /** The first slot whose time is the target. */
  method FindDue(times: seq<Option<int>>, target: int) returns (found: Option<nat>)
    ensures found == IndexOf(times, 0, target)
    ensures found.None? <==> Some(target) !in times
    ensures found.Some? ==> found.value < |times| && times[found.value] == Some(target)
                            && Some(target) !in times[..found.value]
  {
    for i := 0 to |times|
      invariant IndexOf(times, 0, target) == IndexOf(times, i, target)
      invariant Some(target) !in times[..i]
    {
      if times[i] == Some(target) {
        return Some(i);
      }
      assert times[..i + 1] == times[..i] + [times[i]];
    }
    assert times[..|times|] == times;
    return None;
  }

  /** The latest time among events at most a millisecond behind the head, or `latest` if later. */
  method TailAmong(items: seq<SimEvent>, head: int, latest: int) returns (tail: int)
    ensures tail == Tail(items, 0, head, latest)
    ensures latest <= tail
    ensures forall e :: e in items && Since(e.time, head) <= MILLISECOND ==> e.time <= tail
    ensures tail == latest || exists e :: e in items && Since(e.time, head) <= MILLISECOND && e.time == tail
  {
    tail := latest;
    for i := 0 to |items|
      invariant Tail(items, 0, head, latest) == Tail(items, i, head, tail)
      invariant latest <= tail
      invariant forall k :: 0 <= k < i && Since(items[k].time, head) <= MILLISECOND ==> items[k].time <= tail
      invariant tail == latest || exists e :: e in items && Since(e.time, head) <= MILLISECOND && e.time == tail
    {
      var t := items[i].time;
      if Since(t, head) <= MILLISECOND && t > tail {
        assert items[i] in items;
        tail := t;
      }
    }
  }

  /** Does any event follow t within the window? */
  method AnyFollows(items: seq<SimEvent>, t: int, window: nat) returns (any: bool)
    ensures any <==> AnyWithin(items, t, window)
  {
    for i := 0 to |items|
      invariant !AnyWithin(items[..i], t, window)
    {
      if Since(items[i].time, t) <= window {
        assert items[i] in items;
        return true;
      }
    }
    assert items[..|items|] == items;
    return false;
  }

  method DelayWhenExpired(ep: Endpoint, expire: int, head: SimEvent) returns (delay: Option<nat>)
    ensures delay == DelayOnExpire(ep, expire, head)
  {
    var tail := head.time;
    if |ep.queue.blocking.items| + |ep.queue.bypassable.items| > 2 {
      tail := TailAmong(ep.queue.blocking.items, head.time, tail);
      tail := TailAmong(ep.queue.bypassable.items, head.time, tail);
    }
    if expire == tail {
      return None;
    }
    if BaseWithin(ep, head.time, MILLISECOND) {
      return None;
    }
    return Some(Since(expire, tail));
  }

  method DelayWhenReplaced(ep: Endpoint, now: int, head: SimEvent) returns (delay: Option<nat>)
    ensures delay == DelayOnReplace(ep, now, head)
  {
    var any := AnyFollows(ep.queue.blocking.items, head.time, 100 * MILLISECOND);
    if any {
      return None;
    }
    any := AnyFollows(ep.queue.bypassable.items, head.time, 100 * MILLISECOND);
    if any || BaseWithin(ep, head.time, MILLISECOND) {
      return None;
    }
    return Some(Since(now, head.time));
  }

  method Propagates(ep: Endpoint, packet: SimEvent, sum: nat) returns (yes: bool)
    ensures yes <==> PropagatesDelay(ep, packet, sum)
  {
    var any := AnyFollows(ep.queue.blocking.items, packet.time, 100 * MILLISECOND);
    if any {
      return false;
    }
    any := AnyFollows(ep.queue.bypassable.items, packet.time, 100 * MILLISECOND);
    if any {
      return false;
    }
    return !BaseWithin(ep.(sum := sum), packet.time, MILLISECOND);
  }
}
