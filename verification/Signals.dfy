/**
 Signals and counter chains. The log of a call tells which machines were asked to
 transition on which event, so the delivery of signals and the number of CounterZero
 transitions can be stated exactly.
 */
module Signals {
  import opened Prelude
  import opened Machines
  import opened Core = FrameworkSpec

  /** The machines that were asked to transition on e, in order. */
  function FiredOn(log: seq<Note>, e: Event): seq<nat> {
    if log == [] then []
    else
      var last := log[|log| - 1];
      FiredOn(log[..|log| - 1], e) + (if last.Fired? && last.event == e then [last.machine] else [])
  }

  lemma FiredOnAppend(log: seq<Note>, n: Note, e: Event)
    ensures FiredOn(log + [n], e) == FiredOn(log, e) + (if n.Fired? && n.event == e then [n.machine] else [])
  {
    assert (log + [n])[..|log|] == log;
  }

  /** CounterZero transitions made so far plus those the flags still allow. */
  function ZeroBudget(s: Core.Core): nat {
    |FiredOn(s.log, CounterZero)| + Unzeroed(s)
  }

  /**
   From s to r machine mi transitioned on e: it used up flags for every CounterZero it
   caused, fired no other Signal, and raised at most one signal.
   */
  ghost predicate Noted(s: Core.Core, r: Core.Core, mi: nat, e: Option<Event>) {
    && ZeroBudget(r) <= ZeroBudget(s) + (if e == Some(CounterZero) then 1 else 0)
    && FiredOn(r.log, Signal) == FiredOn(s.log, Signal) + (if e == Some(Signal) then [mi] else [])
    && (r.raised == s.raised || r.raised == s.raised + [mi])
  }

  lemma {:induction false} TransitionNoted(c: Config, s: Core.Core, mi: nat, e: Event)
    requires HasMachine(c, s, mi)
    ensures Noted(s, Transition(c, s, mi, e).core, mi, Some(e))
    decreases Unzeroed(s), 2
  {
    hide ValidConfig, MoveTo, Choose, TargetOf, FiredOn, Current, OnlyMoved;
    FiredOnAppend(s.log, Fired(mi, e), CounterZero);
    FiredOnAppend(s.log, Fired(mi, e), Signal);
    var s0 := WithNote(s, Fired(mi, e));
    if s.runtime[mi].currentState != STATE_END {
      var (next, s1) := Choose(c, s0, mi, e);
      if next.None? || next.value == STATE_SIGNAL {
      } else if next.value == STATE_END {
        FiredOnAppend(s1.log, Left(mi), CounterZero);
        FiredOnAppend(s1.log, Left(mi), Signal);
      } else {
        MoveToNoted(c, s1, mi, next.value);
      }
    }
  }

  lemma {:induction false} MoveToNoted(c: Config, s: Core.Core, mi: nat, next: nat)
    requires Running(c, s, mi) && next < |c.machines[mi].states|
    ensures Noted(s, MoveTo(c, s, mi, next).core, mi, None)
    decreases Unzeroed(s), 1
  {
    hide ValidConfig, UpdateCounter, BelowActionLimits, Enter, ScheduleAction, FiredOn, OnlyMoved;
    var s1 := Enter(c, s, mi, next);
    UpdateCounterNoted(c, s1, mi);
    var k := UpdateCounter(c, s1, mi);
    var s2 := if k.allow && BelowActionLimits(c, s1, mi) then ScheduleAction(c, k.core, mi, next) else k.core;
    FiredOnAppend(s2.log, Left(mi), CounterZero);
    FiredOnAppend(s2.log, Left(mi), Signal);
  }

  lemma {:induction false} UpdateCounterNoted(c: Config, s: Core.Core, mi: nat)
    requires Running(c, s, mi)
    ensures Noted(s, UpdateCounter(c, s, mi).core, mi, None)
    decreases Unzeroed(s), 0
  {
    hide ValidConfig, Transition;
    var (s1, zeroed) := UpdateBoth(c, s, mi);
    if zeroed {
      TransitionNoted(c, s1, mi, CounterZero);
    }
  }

  // ---------- Through a whole call ----------

  /** From s to r any machines moved, none on Signal. */
  ghost predicate Quiet(s: Core.Core, r: Core.Core) {
    && ZeroBudget(r) <= ZeroBudget(s)
    && FiredOn(r.log, Signal) == FiredOn(s.log, Signal)
    && s.raised <= r.raised
  }

  lemma DecrementQuiet(c: Config, s: Core.Core, mi: nat)
    requires Running(c, s, mi)
    ensures Quiet(s, DecrementLimit(c, s, mi))
  {
    hide ValidConfig, Transition, FiredOn, OnlyMoved;
    var rt := s.runtime[mi];
    var s1 := WithRuntime(s, mi, rt.(stateLimit := if rt.stateLimit > 0 then rt.stateLimit - 1 else 0));
    TransitionNoted(c, WithAction(s1, mi, None), mi, LimitReached);
  }

  lemma TransitionQuiet(c: Config, s: Core.Core, mi: nat, e: Event)
    requires HasMachine(c, s, mi) && e != Signal && e != CounterZero
    ensures Quiet(s, Transition(c, s, mi, e).core)
    ensures Quiet(s, TransitionAndCount(c, s, mi, e))
  {
    hide ValidConfig, Transition, DecrementLimit;
    TransitionNoted(c, s, mi, e);
    var t := Transition(c, s, mi, e);
    if !t.changed && t.core.runtime[mi].currentState != STATE_END {
      DecrementQuiet(c, t.core, mi);
    }
  }

  /** The events an integrator can report are neither Signal nor CounterZero. */
  function EventOf(e: TriggerEvent): (event: Event)
    ensures event != Signal && event != CounterZero
  {
    match e
    case TENormalRecv => NormalRecv
    case TEPaddingRecv => PaddingRecv
    case TETunnelRecv => TunnelRecv
    case TENormalSent => NormalSent
    case TEPaddingSent(_) => PaddingSent
    case TETunnelSent => TunnelSent
    case TEBlockingBegin(_) => BlockingBegin
    case TEBlockingEnd => BlockingEnd
    case TETimerBegin(_) => TimerBegin
    case TETimerEnd(_) => TimerEnd
  }

  lemma VisitQuiet(c: Config, s: Core.Core, mi: nat, e: TriggerEvent, blocked: nat)
    requires HasMachine(c, s, mi)
    ensures Quiet(s, Visit(c, s, mi, e, blocked))
  {
    hide ValidConfig, Transition, TransitionAndCount;
    TransitionQuiet(c, WithRuntime(s, mi, Bump(s.runtime[mi], e, blocked)), mi, EventOf(e));
  }

  lemma {:induction false} VisitFromQuiet(c: Config, s: Core.Core, mi: nat, e: TriggerEvent, blocked: nat)
    requires WellFormed(c, s) && mi <= |c.machines|
    ensures Quiet(s, VisitFrom(c, s, mi, e, blocked))
    decreases |c.machines| - mi
  {
    hide ValidConfig, Visit;
    if mi < |c.machines| {
      VisitQuiet(c, s, mi, e, blocked);
      VisitFromQuiet(c, Visit(c, s, mi, e, blocked), mi + 1, e, blocked);
    }
  }

  lemma EventQuiet(c: Config, s: Core.Core, e: TriggerEvent)
    requires WellFormed(c, s)
    ensures Quiet(s, ProcessEvent(c, s, e))
  {
    hide ValidConfig, Visit, VisitFrom, FiredOn;
    if Addressed(e) {
      if e.machine < |c.machines| {
        VisitQuiet(c, GlobalBooks(s, e), e.machine, e, 0);
      }
    } else {
      VisitFromQuiet(c, GlobalBooks(s, e), 0, e, Unblocked(s));
    }
  }

  lemma {:induction false} EventsQuiet(c: Config, s: Core.Core, events: seq<TriggerEvent>)
    requires WellFormed(c, s)
    ensures Quiet(s, ProcessEvents(c, s, events))
    decreases |events|
  {
    hide WellFormed, ProcessEvent, FiredOn, ZeroBudget;
    if events != [] {
      EventQuiet(c, s, events[0]);
      EventsQuiet(c, ProcessEvent(c, s, events[0]), events[1..]);
    }
  }

  function Unless(mi: nat, excluded: Option<nat>): seq<nat> {
    if excluded == Some(mi) then [] else [mi]
  }

  /** The machines from mi on, without the excluded one. */
  function Others(mi: nat, n: nat, excluded: Option<nat>): seq<nat>
    requires mi <= n
    decreases n - mi
  {
    if mi == n then []
    else Unless(mi, excluded) + Others(mi + 1, n, excluded)
  }

  lemma {:induction false} SignalRound(c: Config, s: Core.Core, mi: nat, excluded: Option<nat>)
    requires WellFormed(c, s) && mi <= |c.machines|
    ensures var r := SignalFrom(c, s, mi, excluded);
            && FiredOn(r.log, Signal) == FiredOn(s.log, Signal) + Others(mi, |c.machines|, excluded)
            && ZeroBudget(r) <= ZeroBudget(s)
    decreases |c.machines| - mi
  {
    hide WellFormed, Transition, FiredOn, ZeroBudget, Unless;
    if mi < |c.machines| {
      var s1 := SignalOne(c, s, mi, excluded);
      SignalRound(c, s1, mi + 1, excluded);
      Associative(FiredOn(s.log, Signal), Unless(mi, excluded), Others(mi + 1, |c.machines|, excluded));
    }
  }

  lemma Associative(a: seq<nat>, b: seq<nat>, c: seq<nat>)
    ensures a + b + c == a + (b + c)
  {
  }

  lemma SignalOne(c: Config, s: Core.Core, mi: nat, excluded: Option<nat>) returns (r: Core.Core)
    requires HasMachine(c, s, mi)
    ensures r == if excluded == Some(mi) then s else Transition(c, s, mi, Signal).core
    ensures WellFormed(c, r)
    ensures FiredOn(r.log, Signal) == FiredOn(s.log, Signal) + Unless(mi, excluded)
    ensures ZeroBudget(r) <= ZeroBudget(s)
  {
    hide ValidConfig, Transition;
    r := s;
    if excluded != Some(mi) {
      TransitionNoted(c, s, mi, Signal);
      r := Transition(c, s, mi, Signal).core;
    }
  }

  /** The state in which the pending signal is delivered, and the state after the first round. */
  function BeforeDelivery(c: Config, s: Core.Core, events: seq<TriggerEvent>, now: int): (r: Core.Core)
    requires WellFormed(c, s)
    ensures WellFormed(c, r)
  {
    ProcessEvents(c, Begin(c, s, now), events)
  }

  function AfterRound(c: Config, s: Core.Core): (r: Core.Core)
    requires WellFormed(c, s) && s.raised != []
    ensures WellFormed(c, r)
  {
    SignalFrom(c, Take(s), 0, Excluded(s.signalPending.value))
  }

  /** Delivery from a state with an empty signal history. */
  lemma DeliverExact(c: Config, p: Core.Core)
    requires WellFormed(c, p) && FiredOn(p.log, Signal) == []
    ensures var r := Deliver(c, p);
            && ZeroBudget(r) <= ZeroBudget(p)
            && (|p.raised| == 0 ==> r == p)
            && (|p.raised| == 1 ==>
                  && FiredOn(r.log, Signal)
                     == Others(0, |c.machines|, Some(p.raised[0]))
                        + (if AfterRound(c, p).raised != [] then [p.raised[0]] else [])
                  && r.signalPending in {None, Some(AllExcept(p.raised[0]))}
                  && (r.signalPending.Some? ==> AfterRound(c, p).raised != []))
            && (|p.raised| > 1 ==>
                  && FiredOn(r.log, Signal) == Others(0, |c.machines|, None)
                  && r.signalPending == None)
  {
    hide ValidConfig, Transition, SignalFrom, FiredOn, Others;
    if p.raised != [] {
      var excluded := Excluded(p.signalPending.value);
      SignalRound(c, Take(p), 0, excluded);
      assert [] + Others(0, |c.machines|, excluded) == Others(0, |c.machines|, excluded);
      var q := SignalFrom(c, Take(p), 0, excluded);
      if q.raised != [] && excluded.Some? {
        TransitionNoted(c, Take(q), excluded.value, Signal);
      }
    }
  }

  /**
   Delivery, exactly. A lone signaller is excluded from the first round; every other machine
   is signalled once, in order. The lone signaller is signalled once more at the end if and
   only if the first round raised a signal. Only the lone signaller can leave a signal
   pending for the next call, and that signal excludes it.
   */
  lemma Delivery(c: Config, s: Core.Core, events: seq<TriggerEvent>, now: int)
    requires WellFormed(c, s)
    ensures var p := BeforeDelivery(c, s, events, now);
            var r := TriggerEvents(c, s, events, now);
            && s.raised <= p.raised
            && p.signalPending == TargetOf(p.raised)
            && (|p.raised| == 0 ==> FiredOn(r.log, Signal) == [] && r.raised == [])
            && (|p.raised| == 1 ==>
                  && FiredOn(r.log, Signal)
                     == Others(0, |c.machines|, Some(p.raised[0]))
                        + (if AfterRound(c, p).raised != [] then [p.raised[0]] else [])
                  && r.signalPending in {None, Some(AllExcept(p.raised[0]))}
                  && (r.signalPending.Some? ==> AfterRound(c, p).raised != []))
            && (|p.raised| > 1 ==>
                  && FiredOn(r.log, Signal) == Others(0, |c.machines|, None)
                  && r.signalPending == None)
  {
    hide ValidConfig, Deliver, AfterRound, ProcessEvents, Others;
    var b := Begin(c, s, now);
    EventsQuiet(c, b, events);
    hide FiredOn;
    DeliverExact(c, ProcessEvents(c, b, events));
  }

  /** No machine is signalled twice in one call. */
  lemma SignalledOnce(c: Config, s: Core.Core, events: seq<TriggerEvent>, now: int)
    requires WellFormed(c, s)
    ensures var fired := FiredOn(TriggerEvents(c, s, events, now).log, Signal);
            forall i, j :: 0 <= i < j < |fired| ==> fired[i] != fired[j]
  {
    hide ValidConfig, TriggerEvents;
    Delivery(c, s, events, now);
    var p := BeforeDelivery(c, s, events, now);
    if |p.raised| == 1 {
      OthersInOrder(0, |c.machines|, Some(p.raised[0]));
    } else {
      OthersInOrder(0, |c.machines|, None);
    }
  }

  ghost predicate Increasing(xs: seq<nat>) {
    forall i, j :: 0 <= i < j < |xs| ==> xs[i] < xs[j]
  }

  lemma PrependIncreasing(x: nat, rest: seq<nat>)
    requires Increasing(rest) && forall y :: y in rest ==> x < y
    ensures Increasing([x] + rest)
  {
    var all := [x] + rest;
    forall i, j | 0 <= i < j < |all|
      ensures all[i] < all[j]
    {
      assert all[j] == rest[j - 1] && rest[j - 1] in rest;
    }
  }

  /** The machines of a round: each from mi on but the excluded one, in order. */
  lemma {:induction false} OthersInOrder(mi: nat, n: nat, excluded: Option<nat>)
    requires mi <= n
    ensures forall x :: x in Others(mi, n, excluded) <==> mi <= x < n && excluded != Some(x)
    ensures Increasing(Others(mi, n, excluded))
    decreases n - mi
  {
    hide Increasing;
    if mi < n {
      OthersInOrder(mi + 1, n, excluded);
      if excluded != Some(mi) {
        PrependIncreasing(mi, Others(mi + 1, n, excluded));
      } else {
        assert Others(mi, n, excluded) == Others(mi + 1, n, excluded);
      }
    } else {
      EmptyIncreasing();
    }
  }

  lemma EmptyIncreasing()
    ensures Increasing([])
  {
  }

  /** However many events a call carries, CounterZero is triggered at most twice in it. */
  lemma AtMostTwoCounterZeros(c: Config, s: Core.Core, events: seq<TriggerEvent>, now: int)
    requires WellFormed(c, s)
    ensures |FiredOn(TriggerEvents(c, s, events, now).log, CounterZero)| <= 2
  {
    hide ValidConfig, Deliver, AfterRound, ProcessEvents;
    var b := Begin(c, s, now);
    EventsQuiet(c, b, events);
    DeliverExact(c, ProcessEvents(c, b, events));
  }

  // ---------- A machine signals itself ----------

  /** One machine that signals whenever a packet is received. */
  function Signaller(): Config {
    var state := State(None, None, None, map[NormalRecv := [Trans(STATE_SIGNAL, 1.0)]]);
    Config([Machine(0, 0.0, 0, 0.0, [state])], 0.0, 0.0, 0, Tape(k => 0.0, (d, k) => 0.0))
  }

  lemma SignallerIsValid()
    ensures ValidConfig(Signaller())
  {
    var v := [Trans(STATE_SIGNAL, 1.0)];
    assert Prefix(v, 1) == Prefix(v, 0) + 1.0;
    assert ValidVector(v, 1);
    assert ValidState(Signaller().machines[0].states[0], 1);
  }

  /** In the start state, it raises a signal on every packet received. */
  lemma RaisesOne(s: Core.Core)
    requires HasMachine(Signaller(), s, 0) && s.runtime[0].currentState == 0
    ensures var r := ProcessEvent(Signaller(), s, TENormalRecv);
            r.raised == s.raised + [0] && r.runtime[0].currentState == 0
  {
    hide ValidConfig;
    var c := Signaller();
    var v := c.machines[0].states[0].transitions[NormalRecv];
    assert Prefix(v, 1) == Prefix(v, 0) + 1.0;
    assert PickFrom(v, 0, 0.0) == Some(STATE_SIGNAL);
    var s1 := WithRuntime(s, 0, Bump(s.runtime[0], TENormalRecv, 0));
    assert s1.runtime == s.runtime;
    var s0 := WithNote(s1, Fired(0, NormalRecv));
    assert Choose(c, s0, 0, NormalRecv) == (Some(STATE_SIGNAL), s0.(draws := s0.draws + 1));
    var r := Visit(c, s, 0, TENormalRecv, Unblocked(s));
    assert r == Transition(c, s1, 0, NormalRecv).core;
    assert VisitFrom(c, r, 1, TENormalRecv, Unblocked(s)) == r;
  }

  /** Two packets received in one call make the only machine signal itself. */
  lemma SignalsItself()
    ensures ValidConfig(Signaller())
    ensures FiredOn(TriggerEvents(Signaller(), Start(Signaller()), [TENormalRecv, TENormalRecv], 0).log, Signal) == [0]
  {
    SignallerIsValid();
    hide ValidConfig, ProcessEvent, Deliver, FiredOn;
    var c := Signaller();
    var s := Start(c);
    assert s.runtime[0].currentState == 0 && s.raised == [];
    var b := Begin(c, s, 0);
    var events := [TENormalRecv, TENormalRecv];
    RaisesOne(b);
    var p1 := ProcessEvent(c, b, TENormalRecv);
    RaisesOne(p1);
    var p2 := ProcessEvent(c, p1, TENormalRecv);
    assert events[1..] == [TENormalRecv] && [TENormalRecv][1..] == [];
    assert ProcessEvents(c, p2, []) == p2;
    assert ProcessEvents(c, p1, [TENormalRecv]) == p2;
    assert BeforeDelivery(c, s, events, 0) == p2;
    assert p2.raised == [0, 0];
    Delivery(c, s, events, 0);
    assert Others(0, 1, None) == [0] + Others(1, 1, None);
  }
}
