/**
 Accounting over whole runs: every machine's books agree with the global ones, and the
 blocked time is the number of clock ticks at which blocking was on.
 */
module Accounting {
  import opened Prelude
  import opened Machines
  import opened Core = FrameworkSpec

  datatype Call = Call(events: seq<TriggerEvent>, now: int)

  /** A run of the framework: the calls one after another. */
  function Run(c: Config, s: Core.Core, calls: seq<Call>): (r: Core.Core)
    requires WellFormed(c, s)
    ensures WellFormed(c, r)
    decreases |calls|
  {
    if calls == [] then s
    else Run(c, TriggerEvents(c, s, calls[0].events, calls[0].now), calls[1..])
  }

  // ---------- What an event does to the books ----------

  /** Machine i's books in r are those of s after event e. */
  ghost predicate Booked(s: Core.Core, r: Core.Core, i: nat, e: TriggerEvent, blocked: nat)
    requires i < |s.runtime| == |r.runtime|
  {
    SameBooks(Bump(s.runtime[i], e, blocked), r.runtime[i])
  }

  lemma VisitBooks(c: Config, s: Core.Core, mi: nat, e: TriggerEvent, blocked: nat)
    requires HasMachine(c, s, mi)
    ensures var r := Visit(c, s, mi, e, blocked);
            && SameGlobalBooks(s, r) && Booked(s, r, mi, e, blocked)
            && forall j :: 0 <= j < |s.runtime| && j != mi ==> r.runtime[j] == s.runtime[j]
  {
    hide ValidConfig, Transition, TransitionAndCount;
  }

  lemma {:induction false} VisitFromBooks(c: Config, s: Core.Core, mi: nat, e: TriggerEvent, blocked: nat)
    requires WellFormed(c, s) && mi <= |c.machines|
    ensures var r := VisitFrom(c, s, mi, e, blocked);
            && SameGlobalBooks(s, r)
            && (forall j :: 0 <= j < mi ==> SameBooks(s.runtime[j], r.runtime[j]))
            && (forall j :: mi <= j < |c.machines| ==> Booked(s, r, j, e, blocked))
    decreases |c.machines| - mi
  {
    hide ValidConfig, Visit;
    if mi < |c.machines| {
      VisitBooks(c, s, mi, e, blocked);
      var s1 := Visit(c, s, mi, e, blocked);
      VisitFromBooks(c, s1, mi + 1, e, blocked);
      var r := VisitFrom(c, s, mi, e, blocked);
      forall j | mi < j < |c.machines|
        ensures Booked(s, r, j, e, blocked)
      {
        assert Booked(s1, r, j, e, blocked);
      }
    }
  }

  /** The event reaches machine i. */
  predicate Reaches(e: TriggerEvent, i: nat) {
    Addressed(e) ==> e.machine == i
  }

  lemma EventBooks(c: Config, s: Core.Core, e: TriggerEvent)
    requires WellFormed(c, s)
    ensures var r := ProcessEvent(c, s, e);
            && SameGlobalBooks(GlobalBooks(s, e), r)
            && (forall i :: 0 <= i < |c.machines| ==>
                  if Reaches(e, i) then Booked(s, r, i, e, Unblocked(s)) else SameBooks(s.runtime[i], r.runtime[i]))
  {
    hide ValidConfig, Visit, VisitFrom;
    if Addressed(e) {
      if e.machine < |c.machines| {
        VisitBooks(c, GlobalBooks(s, e), e.machine, e, 0);
      }
    } else {
      VisitFromBooks(c, GlobalBooks(s, e), 0, e, Unblocked(s));
      var r := ProcessEvent(c, s, e);
      forall i | 0 <= i < |c.machines|
        ensures Booked(s, r, i, e, Unblocked(s))
      {
        assert Booked(GlobalBooks(s, e), r, i, e, Unblocked(s));
      }
    }
  }

  ghost predicate BooksKept(s: Core.Core, r: Core.Core) {
    && |s.runtime| == |r.runtime| && SameGlobalBooks(s, r)
    && forall i :: 0 <= i < |s.runtime| ==> SameBooks(s.runtime[i], r.runtime[i])
  }

  lemma {:induction false} SignalBooks(c: Config, s: Core.Core, mi: nat, excluded: Option<nat>)
    requires WellFormed(c, s) && mi <= |c.machines|
    ensures BooksKept(s, SignalFrom(c, s, mi, excluded))
    decreases |c.machines| - mi
  {
    hide ValidConfig, Transition;
    if mi < |c.machines| {
      SignalBooks(c, if excluded == Some(mi) then s else Transition(c, s, mi, Signal).core, mi + 1, excluded);
    }
  }

  lemma DeliverBooks(c: Config, s: Core.Core)
    requires WellFormed(c, s)
    ensures BooksKept(s, Deliver(c, s))
  {
    hide ValidConfig, Transition, SignalFrom;
    if s.signalPending.Some? {
      SignalBooks(c, Take(s), 0, Excluded(s.signalPending.value));
    }
  }

  // ---------- Machines agree with the whole ----------

  /** Machine i has counted every normal packet and all blocking, and no more padding than all together. */
  ghost predicate Agrees(s: Core.Core, rt: Runtime) {
    && rt.normalSent == s.normalSent
    && rt.blockingDuration == s.blockingDuration
    && rt.paddingSent <= s.paddingSent
  }

  ghost predicate Balanced(s: Core.Core) {
    forall i :: 0 <= i < |s.runtime| ==> Agrees(s, s.runtime[i])
  }

  lemma EventBalanced(c: Config, s: Core.Core, e: TriggerEvent)
    requires WellFormed(c, s) && Balanced(s)
    ensures Balanced(ProcessEvent(c, s, e))
  {
    hide ValidConfig, ProcessEvent;
    EventBooks(c, s, e);
    var r := ProcessEvent(c, s, e);
    forall i | 0 <= i < |r.runtime|
      ensures Agrees(r, r.runtime[i])
    {
      assert Agrees(s, s.runtime[i]);
      assert Reaches(e, i) || !Reaches(e, i);
    }
  }

  lemma {:induction false} EventsBalanced(c: Config, s: Core.Core, events: seq<TriggerEvent>)
    requires WellFormed(c, s) && Balanced(s)
    ensures Balanced(ProcessEvents(c, s, events))
    decreases |events|
  {
    hide ValidConfig, ProcessEvent;
    if events != [] {
      EventBalanced(c, s, events[0]);
      EventsBalanced(c, ProcessEvent(c, s, events[0]), events[1..]);
    }
  }

  lemma CallBalanced(c: Config, s: Core.Core, events: seq<TriggerEvent>, now: int)
    requires WellFormed(c, s) && Balanced(s)
    ensures Balanced(TriggerEvents(c, s, events, now))
  {
    hide ValidConfig, ProcessEvents, Deliver;
    var b := Begin(c, s, now);
    assert Balanced(b) by {
      forall i | 0 <= i < |b.runtime|
        ensures Agrees(b, b.runtime[i])
      {
        assert Agrees(s, s.runtime[i]);
      }
    }
    EventsBalanced(c, b, events);
    var p := ProcessEvents(c, b, events);
    DeliverBooks(c, p);
    forall i | 0 <= i < |p.runtime|
      ensures Agrees(Deliver(c, p), Deliver(c, p).runtime[i])
    {
      assert Agrees(p, p.runtime[i]);
    }
  }

  lemma {:induction false} StartLimitsBooks(c: Config, s: Core.Core, mi: nat)
    requires WellFormed(c, s) && mi <= |c.machines|
    ensures BooksKept(s, StartLimits(c, s, mi))
    ensures StartLimits(c, s, mi).raised == s.raised && StartLimits(c, s, mi).actions == s.actions
    decreases |c.machines| - mi
  {
    if mi < |c.machines| {
      assert ValidMachine(c.machines[mi]);
      hide ValidConfig, ValidMachine, SampleLimit;
      match c.machines[mi].states[0].action
      case None =>
        StartLimitsBooks(c, s, mi + 1);
      case Some(action) =>
        var (limit, s1) := SampleLimit(c, s, action);
        StartLimitsBooks(c, WithRuntime(s1, mi, s1.runtime[mi].(stateLimit := limit)), mi + 1);
    }
  }

  /** The books at the start are empty. */
  lemma StartBooks(c: Config)
    requires ValidConfig(c)
    ensures var s := Start(c);
            && s.now == c.start && s.normalSent == 0 && s.paddingSent == 0
            && s.blockingDuration == 0 && !s.blockingActive && s.raised == []
            && s.actions == NoActions(c)
            && (forall i :: 0 <= i < |c.machines| ==> SameBooks(StartRuntime(c, i), s.runtime[i]))
            && Balanced(s)
  {
    assert forall i :: 0 <= i < |c.machines| ==> ValidMachine(c.machines[i]);
    var s0 := AtStart(c);
    StartLimitsBooks(c, s0, 0);
    hide ValidConfig, ValidMachine, StartLimits;
    var s := Start(c);
    forall i | 0 <= i < |s.runtime|
      ensures Agrees(s, s.runtime[i])
      ensures SameBooks(StartRuntime(c, i), s.runtime[i])
    {
      assert SameBooks(s0.runtime[i], s.runtime[i]);
    }
  }

  /** After any run the machines' books agree with the global ones. */
  lemma {:induction false} RunBalanced(c: Config, s: Core.Core, calls: seq<Call>)
    requires WellFormed(c, s) && Balanced(s)
    ensures Balanced(Run(c, s, calls))
    decreases |calls|
  {
    hide ValidConfig, TriggerEvents;
    if calls != [] {
      CallBalanced(c, s, calls[0].events, calls[0].now);
      RunBalanced(c, TriggerEvents(c, s, calls[0].events, calls[0].now), calls[1..]);
    }
  }

  // ---------- Blocked time, tick by tick ----------

  /** An event at the time of its call. */
  datatype Timed = Timed(event: TriggerEvent, time: int)

  function Timeline(calls: seq<Call>): seq<Timed> {
    if calls == [] then [] else At(calls[0].events, calls[0].now) + Timeline(calls[1..])
  }

  function At(events: seq<TriggerEvent>, now: int): seq<Timed> {
    seq(|events|, i requires 0 <= i < |events| => Timed(events[i], now))
  }

  /** Blocking is on at tick x: some begin at or before x has no later end at or before x. */
  ghost predicate BlockedAt(h: seq<Timed>, x: int) {
    exists k :: 0 <= k < |h| && h[k].event.TEBlockingBegin? && h[k].time <= x && NoEndAfter(h, k, x)
  }

  ghost predicate NoEndAfter(h: seq<Timed>, k: nat, x: int) {
    forall j :: k < j < |h| && h[j].event.TEBlockingEnd? ==> x < h[j].time
  }

  ghost function BlockedTicks(h: seq<Timed>, lo: int, hi: int): set<int> {
    set x | lo <= x < hi && BlockedAt(h, x)
  }

  /** Blocking at tick x once one more event is known. */
  lemma BlockedAtAppend(h: seq<Timed>, e: Timed, x: int)
    ensures BlockedAt(h + [e], x) <==>
              || (e.event.TEBlockingBegin? && e.time <= x)
              || (BlockedAt(h, x) && !(e.event.TEBlockingEnd? && e.time <= x))
  {
    var g := h + [e];
    if e.event.TEBlockingBegin? && e.time <= x {
      assert g[|h|] == e && NoEndAfter(g, |h|, x);
    }
    if BlockedAt(h, x) && !(e.event.TEBlockingEnd? && e.time <= x) {
      var k :| 0 <= k < |h| && h[k].event.TEBlockingBegin? && h[k].time <= x && NoEndAfter(h, k, x);
      assert g[k] == h[k];
      assert NoEndAfter(g, k, x);
    }
    if BlockedAt(g, x) {
      var k :| 0 <= k < |g| && g[k].event.TEBlockingBegin? && g[k].time <= x && NoEndAfter(g, k, x);
      if k < |h| {
        assert h[k] == g[k];
        assert forall j :: k < j < |h| ==> h[j] == g[j];
        assert NoEndAfter(h, k, x);
        assert g[|h|] == e;
      }
    }
  }

  /** The time up to which blocked ticks have been added to the books. */
  function Settled(s: Core.Core): int {
    if s.blockingActive then s.blockingStarted else s.now
  }

  /** The books of s after history h: ticks before Settled are counted, later ones are all or none blocked. */
  ghost predicate Ledger(s: Core.Core, h: seq<Timed>, from: int) {
    && from <= Settled(s) <= s.now
    && s.blockingDuration == |BlockedTicks(h, from, Settled(s))|
    && (forall x :: x >= Settled(s) ==> (BlockedAt(h, x) <==> s.blockingActive))
  }

  /** The ticks from lo up to, not including, hi. */
  ghost function Span(lo: int, hi: int): (r: set<int>)
    requires lo <= hi
    ensures |r| == hi - lo
    ensures forall x :: (x in r <==> lo <= x < hi)
    decreases hi - lo
  {
    if lo == hi then {} else Span(lo, hi - 1) + {hi - 1}
  }

  /** Ticks from `mid` on are all blocked: they add up to an interval. */
  lemma TicksExtend(h: seq<Timed>, lo: int, mid: int, hi: int, on: bool)
    requires lo <= mid <= hi
    requires forall x :: mid <= x < hi ==> (BlockedAt(h, x) <==> on)
    ensures |BlockedTicks(h, lo, hi)| == |BlockedTicks(h, lo, mid)| + (if on then hi - mid else 0)
  {
    var more := Span(mid, hi);
    if on {
      assert BlockedTicks(h, lo, hi) == BlockedTicks(h, lo, mid) + more;
      assert BlockedTicks(h, lo, mid) !! more;
    } else {
      assert BlockedTicks(h, lo, hi) == BlockedTicks(h, lo, mid);
    }
  }

  lemma EventLedger(c: Config, s: Core.Core, e: TriggerEvent, h: seq<Timed>, from: int)
    requires WellFormed(c, s) && Ledger(s, h, from)
    ensures Ledger(ProcessEvent(c, s, e), h + [Timed(e, s.now)], from)
  {
    hide ValidConfig, ProcessEvent;
    EventBooks(c, s, e);
    var r := GlobalBooks(s, e);
    var g := h + [Timed(e, s.now)];
    forall x
      ensures BlockedAt(g, x) <==> (e.TEBlockingBegin? && s.now <= x)
                                   || (BlockedAt(h, x) && !(e.TEBlockingEnd? && s.now <= x))
    {
      BlockedAtAppend(h, Timed(e, s.now), x);
    }
    TicksExtend(h, from, Settled(s), s.now, s.blockingActive);
    assert BlockedTicks(g, from, Settled(r)) == BlockedTicks(h, from, Settled(r));
  }

  lemma {:induction false} EventsLedger(c: Config, s: Core.Core, events: seq<TriggerEvent>, h: seq<Timed>, from: int)
    requires WellFormed(c, s) && Ledger(s, h, from)
    ensures Ledger(ProcessEvents(c, s, events), h + At(events, s.now), from)
    decreases |events|
  {
    hide ValidConfig, ProcessEvent, Ledger;
    if events != [] {
      EventLedger(c, s, events[0], h, from);
      EventBooks(c, s, events[0]);
      var t := Timed(events[0], s.now);
      EventsLedger(c, ProcessEvent(c, s, events[0]), events[1..], h + [t], from);
      assert h + [t] + At(events[1..], s.now) == h + At(events, s.now);
    } else {
      assert h + At(events, s.now) == h;
    }
  }

  lemma CallLedger(c: Config, s: Core.Core, call: Call, h: seq<Timed>, from: int)
    requires WellFormed(c, s) && Ledger(s, h, from) && s.now <= call.now
    ensures Ledger(TriggerEvents(c, s, call.events, call.now), h + At(call.events, call.now), from)
    ensures TriggerEvents(c, s, call.events, call.now).now == call.now
  {
    hide ValidConfig, ProcessEvents, Deliver;
    var b := Begin(c, s, call.now);
    TicksExtend(h, from, Settled(s), Settled(b), false);
    EventsLedger(c, b, call.events, h, from);
    EventsNow(c, b, call.events);
    DeliverBooks(c, ProcessEvents(c, b, call.events));
  }

  lemma {:induction false} EventsNow(c: Config, s: Core.Core, events: seq<TriggerEvent>)
    requires WellFormed(c, s)
    ensures ProcessEvents(c, s, events).now == s.now
    decreases |events|
  {
    hide ValidConfig, ProcessEvent;
    if events != [] {
      EventBooks(c, s, events[0]);
      EventsNow(c, ProcessEvent(c, s, events[0]), events[1..]);
    }
  }

  ghost predicate Monotonic(calls: seq<Call>, from: int) {
    && (forall i :: 0 <= i < |calls| ==> from <= calls[i].now)
    && (forall i, j :: 0 <= i < j < |calls| ==> calls[i].now <= calls[j].now)
  }

  lemma {:induction false} RunLedger(c: Config, s: Core.Core, calls: seq<Call>, h: seq<Timed>, from: int)
    requires WellFormed(c, s) && Ledger(s, h, from) && Monotonic(calls, s.now)
    ensures Ledger(Run(c, s, calls), h + Timeline(calls), from)
    decreases |calls|
  {
    hide ValidConfig, TriggerEvents;
    if calls != [] {
      CallLedger(c, s, calls[0], h, from);
      var g := h + At(calls[0].events, calls[0].now);
      assert forall i :: 0 <= i < |calls[1..]| ==> calls[1..][i] == calls[i + 1];
      RunLedger(c, TriggerEvents(c, s, calls[0].events, calls[0].now), calls[1..], g, from);
      assert g + Timeline(calls[1..]) == h + Timeline(calls);
    } else {
      assert h + Timeline(calls) == h;
    }
  }

  /**
   With a nondecreasing clock, after any run from the start: at any later time, the blocked
   time on the global books plus the blocking still going on is the number of ticks at which
   blocking was on; every machine's books show the same; so it never exceeds the time elapsed.
   */
  lemma BlockedTimeIsExact(c: Config, calls: seq<Call>, now: int)
    requires ValidConfig(c) && Monotonic(calls, c.start)
    requires Run(c, Start(c), calls).now <= now
    ensures var s := Run(c, Start(c), calls);
            var ongoing := if s.blockingActive then now - s.blockingStarted else 0;
            && s.blockingDuration + ongoing == |BlockedTicks(Timeline(calls), c.start, now)|
            && s.blockingDuration + ongoing <= now - c.start
            && (forall i :: 0 <= i < |c.machines| ==>
                  && s.runtime[i].blockingDuration == s.blockingDuration
                  && s.runtime[i].normalSent == s.normalSent)
  {
    StartBooks(c);
    hide ValidConfig, Start, Run;
    var s0 := Start(c);
    assert BlockedTicks([], c.start, c.start) == {};
    assert Ledger(s0, [], c.start);
    RunLedger(c, s0, calls, [], c.start);
    RunBalanced(c, s0, calls);
    var s := Run(c, s0, calls);
    var h := Timeline(calls);
    assert [] + h == h;
    TicksExtend(h, c.start, Settled(s), now, s.blockingActive);
    SubsetSize(BlockedTicks(h, c.start, now), Span(c.start, now));
    forall i | 0 <= i < |c.machines|
      ensures s.runtime[i].blockingDuration == s.blockingDuration && s.runtime[i].normalSent == s.normalSent
    {
      assert Agrees(s, s.runtime[i]);
    }
  }

  lemma SubsetSize(a: set<int>, b: set<int>)
    requires a <= b
    ensures |a| <= |b|
  {
    assert b == a + (b - a);
  }
}
