/**
 State limits over a visit. A visit of machine mi lasts until one of its transitions
 reports a change of state, which the log records as Left(mi); a CounterZero chain out of
 the state and back counts as leaving.
 */
module Limits {
  import opened Prelude
  import opened Machines
  import opened Core = FrameworkSpec
  import opened Accounting
  import Signals

  // ---------- A limit that is used up ----------

  /**
   The two exits of the padding limit that do not ask for the state limit: past the allowance,
   a machine with a fraction has counted no packet; or its own fraction does not stop it, there
   is a global fraction, and no packet at all was counted.
   */
  predicate ZeroTotalExit(c: Config, s: Core.Core, mi: nat)
    requires mi < |c.machines| && mi < |s.runtime|
  {
    var rt := s.runtime[mi];
    var m := c.machines[mi];
    var total := rt.normalSent + rt.paddingSent;
    && m.allowedPaddingPackets <= rt.paddingSent
    && (|| (m.maxPaddingFrac > 0.0 && total == 0)
        || (&& !(m.maxPaddingFrac > 0.0 && FracReached(rt.paddingSent, total, m.maxPaddingFrac))
            && c.maxPaddingFrac > 0.0 && s.normalSent + s.paddingSent == 0))
  }

  /** The limit of the current state is used up, and nothing exempts its action. */
  ghost predicate Exhausted(c: Config, s: Core.Core, mi: nat) {
    && Running(c, s, mi)
    && s.runtime[mi].stateLimit == 0
    && match Current(c, s, mi).action
       case None => false
       case Some(Cancel(_)) => false
       case Some(BlockOutgoing(_, _, _, _, _)) => true
       case Some(UpdateTimer(_, _, _)) => true
       case Some(SendPadding(_, _, _, _)) => !ZeroTotalExit(c, s, mi)
  }

  /** With a used-up limit, padding is let through exactly by a zero-total exit. */
  lemma PaddingPastLimit(c: Config, s: Core.Core, mi: nat)
    requires Running(c, s, mi) && s.runtime[mi].stateLimit == 0
    ensures BelowLimitPadding(c, s, mi) <==> ZeroTotalExit(c, s, mi)
  {
    hide ValidConfig;
  }

  /** With a used-up limit, a limited action is held back exactly in an exhausted state. */
  lemma ExhaustedExact(c: Config, s: Core.Core, mi: nat)
    requires Running(c, s, mi) && s.runtime[mi].stateLimit == 0
    requires Current(c, s, mi).action.Some? && !Current(c, s, mi).action.value.Cancel?
    ensures Exhausted(c, s, mi) <==> !BelowActionLimits(c, s, mi)
  {
    hide ValidConfig, BelowLimitPadding, ZeroTotalExit;
    PaddingPastLimit(c, s, mi);
  }

  // ---------- Uses of the limit ----------

  /** The limit after some uses. */
  function Remaining(limit: nat, uses: nat): nat {
    if uses <= limit then limit - uses else 0
  }

  /** Reporting padding, blocking or a timer of machine mi uses up one unit of its limit. */
  function Uses(e: TriggerEvent, mi: nat): nat {
    if e == TEPaddingSent(mi) || e == TEBlockingBegin(mi) || e == TETimerBegin(mi) then 1 else 0
  }

  function UsesIn(events: seq<TriggerEvent>, mi: nat): nat {
    if events == [] then 0 else Uses(events[0], mi) + UsesIn(events[1..], mi)
  }

  function UsesInCalls(calls: seq<Call>, mi: nat): nat {
    if calls == [] then 0 else UsesIn(calls[0].events, mi) + UsesInCalls(calls[1..], mi)
  }

  /** The limit falls by exactly the uses; a machine that has ended keeps it. */
  predicate Used(s: Core.Core, r: Core.Core, mi: nat, uses: nat)
    requires mi < |s.runtime| == |r.runtime|
  {
    r.runtime[mi].stateLimit
    == if s.runtime[mi].currentState == STATE_END then s.runtime[mi].stateLimit
       else Remaining(s.runtime[mi].stateLimit, uses)
  }

  /**
   The visit goes on from s to r: same state, the limit fell by exactly the uses, and an
   exhausted state stays exhausted and scheduled nothing.
   */
  ghost predicate VisitGoesOn(c: Config, s: Core.Core, r: Core.Core, mi: nat, uses: nat)
    requires mi < |s.runtime| == |r.runtime| == |s.actions| == |r.actions|
  {
    && r.runtime[mi].currentState == s.runtime[mi].currentState
    && Used(s, r, mi, uses)
    && (Exhausted(c, s, mi) ==> Exhausted(c, r, mi) && r.actions[mi] in {s.actions[mi], None})
  }

  /** A transition records a change of state, and unless it does the visit goes on with the same limit. */
  ghost predicate Recorded(c: Config, s: Core.Core, r: Moved, mi: nat)
    requires mi < |s.runtime| == |r.core.runtime| == |s.actions| == |r.core.actions|
  {
    && s.log <= r.core.log
    && (r.changed ==> Left(mi) in r.core.log)
    && (!r.changed ==> VisitGoesOn(c, s, r.core, mi, 0))
  }

  /** Where neither the machine's runtime nor its slot nor the books change, its visit goes on. */
  lemma NothingMoved(c: Config, s: Core.Core, r: Core.Core, mi: nat)
    requires HasMachine(c, s, mi) && HasMachine(c, r, mi)
    requires r.runtime == s.runtime && r.actions == s.actions && SameGlobalBooks(s, r)
    ensures VisitGoesOn(c, s, r, mi, 0)
  {
    hide ValidConfig, FracReached;
  }

  /** What a visit does from a state that differs in draws and notes only. */
  lemma SameVisit(c: Config, s: Core.Core, s1: Core.Core, r: Core.Core, mi: nat)
    requires HasMachine(c, s, mi) && s1 == s.(draws := s1.draws, log := s1.log)
    requires |r.runtime| == |s.runtime| == |r.actions|
    ensures VisitGoesOn(c, s, r, mi, 0) == VisitGoesOn(c, s1, r, mi, 0)
  {
    hide ValidConfig, FracReached;
  }

  lemma {:induction false} TransitionRecorded(c: Config, s: Core.Core, mi: nat, e: Event)
    requires HasMachine(c, s, mi)
    ensures Recorded(c, s, Transition(c, s, mi, e), mi)
    decreases Unzeroed(s), 2
  {
    hide ValidConfig, MoveTo, Choose, VisitGoesOn, OnlyMoved;
    var r := Transition(c, s, mi, e);
    var s0 := WithNote(s, Fired(mi, e));
    if s.runtime[mi].currentState == STATE_END {
      NothingMoved(c, s, s0, mi);
    } else {
      var (next, s1) := Choose(c, s0, mi, e);
      if next.None? || next.value == STATE_SIGNAL {
        NothingMoved(c, s, r.core, mi);
      } else if next.value != STATE_END {
        MoveToRecorded(c, s1, mi, next.value);
        SameVisit(c, s, s1, r.core, mi);
      }
    }
  }

  /** A transition to the same state samples no new limit. */
  lemma StaysPut(c: Config, s: Core.Core, mi: nat)
    requires Running(c, s, mi)
    ensures Enter(c, s, mi, s.runtime[mi].currentState) == s
    ensures Exhausted(c, s, mi) ==> !BelowActionLimits(c, s, mi)
  {
    hide BelowActionLimits;
    if Exhausted(c, s, mi) {
      ExhaustedExact(c, s, mi);
    }
  }

  lemma {:induction false} MoveToRecorded(c: Config, s: Core.Core, mi: nat, next: nat)
    requires Running(c, s, mi) && next < |c.machines[mi].states|
    ensures Recorded(c, s, MoveTo(c, s, mi, next), mi)
    decreases Unzeroed(s), 1
  {
    hide ValidConfig, UpdateCounter, BelowActionLimits, Enter, ScheduleAction;
    var s1 := Enter(c, s, mi, next);
    if s.runtime[mi].currentState == next {
      StaysPut(c, s, mi);
    }
    UpdateCounterRecorded(c, s1, mi);
  }

  lemma {:induction false} UpdateCounterRecorded(c: Config, s: Core.Core, mi: nat)
    requires Running(c, s, mi)
    ensures var k := UpdateCounter(c, s, mi); Recorded(c, s, Moved(k.core, k.changed), mi)
    decreases Unzeroed(s), 0
  {
    hide ValidConfig, Transition;
    var (s1, zeroed) := UpdateBoth(c, s, mi);
    if zeroed {
      TransitionRecorded(c, s1, mi, CounterZero);
    }
  }

  // ---------- Through a whole call ----------

  /** From s to r: either machine mi left its state, and the log says so, or its visit goes on. */
  ghost predicate Followed(c: Config, s: Core.Core, r: Core.Core, mi: nat, uses: nat)
    requires mi < |s.runtime| == |r.runtime| == |s.actions| == |r.actions|
  {
    s.log <= r.log && (Left(mi) in r.log || VisitGoesOn(c, s, r, mi, uses))
  }

  lemma FollowedOn(c: Config, s: Core.Core, q: Core.Core, r: Core.Core, mi: nat, m: nat, n: nat)
    requires mi < |s.runtime| == |q.runtime| == |r.runtime| == |s.actions| == |q.actions| == |r.actions|
    requires Followed(c, s, q, mi, m) && Followed(c, q, r, mi, n)
    ensures Followed(c, s, r, mi, m + n)
  {
    hide Exhausted;
  }

  lemma StandsStill(c: Config, s: Core.Core, mi: nat)
    requires mi < |s.runtime| == |s.actions|
    ensures Followed(c, s, s, mi, 0)
  {
    hide Exhausted;
  }

  /** One unit less of its own limit, and perhaps an action dropped. */
  lemma UseFollowed(c: Config, s: Core.Core, other: nat, mi: nat)
    requires HasMachine(c, s, mi) && Running(c, s, other)
    ensures var rt := s.runtime[other];
            var s1 := WithRuntime(s, other, rt.(stateLimit := if rt.stateLimit > 0 then rt.stateLimit - 1 else 0));
            && HasMachine(c, WithAction(s1, other, None), other)
            && Followed(c, s, s1, mi, if mi == other then 1 else 0)
            && Followed(c, s, WithAction(s1, other, None), mi, if mi == other then 1 else 0)
  {
    hide ValidConfig, FracReached;
  }

  lemma DecrementFollowed(c: Config, s: Core.Core, other: nat, mi: nat)
    requires HasMachine(c, s, mi) && Running(c, s, other)
    ensures Followed(c, s, DecrementLimit(c, s, other), mi, if mi == other then 1 else 0)
  {
    hide ValidConfig, Transition, Followed, Exhausted;
    UseFollowed(c, s, other, mi);
    var rt := s.runtime[other];
    var s1 := WithRuntime(s, other, rt.(stateLimit := if rt.stateLimit > 0 then rt.stateLimit - 1 else 0));
    var s2 := WithAction(s1, other, None);
    TransitionFollowed(c, s2, other, LimitReached, mi);
    FollowedOn(c, s, s2, Transition(c, s2, other, LimitReached).core, mi, if mi == other then 1 else 0, 0);
  }

  /** Any transition of any machine `other`, as seen from mi. */
  lemma TransitionFollowed(c: Config, s: Core.Core, other: nat, e: Event, mi: nat)
    requires HasMachine(c, s, mi) && HasMachine(c, s, other)
    ensures Followed(c, s, Transition(c, s, other, e).core, mi, 0)
  {
    hide ValidConfig, Transition;
    TransitionRecorded(c, s, other, e);
  }

  /** A transition that counts uses up a unit of its own machine. */
  lemma CountFollowed(c: Config, s: Core.Core, other: nat, e: Event, mi: nat)
    requires HasMachine(c, s, mi) && HasMachine(c, s, other)
    ensures Followed(c, s, TransitionAndCount(c, s, other, e), mi, if mi == other then 1 else 0)
  {
    hide ValidConfig, Transition, DecrementLimit, Exhausted;
    TransitionRecorded(c, s, other, e);
    TransitionFollowed(c, s, other, e, mi);
    var t := Transition(c, s, other, e);
    if !t.changed && t.core.runtime[other].currentState != STATE_END {
      DecrementFollowed(c, t.core, other, mi);
      FollowedOn(c, s, t.core, DecrementLimit(c, t.core, other), mi, 0, if mi == other then 1 else 0);
    }
  }

  /** A packet that a machine counts was counted globally before. */
  predicate CountedFirst(s: Core.Core, e: TriggerEvent) {
    e.TENormalSent? || e.TEPaddingSent? ==> s.normalSent + s.paddingSent > 0
  }

  /** The uses of mi's limit when machine `other` sees the event. */
  function UsesOf(e: TriggerEvent, other: nat, mi: nat): nat {
    if other == mi then Uses(e, mi) else 0
  }

  lemma BumpFollowed(c: Config, s: Core.Core, other: nat, e: TriggerEvent, blocked: nat, mi: nat)
    requires HasMachine(c, s, mi) && HasMachine(c, s, other) && CountedFirst(s, e)
    ensures Followed(c, s, WithRuntime(s, other, Bump(s.runtime[other], e, blocked)), mi, 0)
  {
    hide ValidConfig, FracReached;
  }

  lemma VisitFollowed(c: Config, s: Core.Core, other: nat, e: TriggerEvent, blocked: nat, mi: nat)
    requires HasMachine(c, s, mi) && HasMachine(c, s, other) && CountedFirst(s, e)
    requires Addressed(e) ==> e.machine == other
    ensures Followed(c, s, Visit(c, s, other, e, blocked), mi, UsesOf(e, other, mi))
  {
    hide ValidConfig, Transition, TransitionAndCount, Followed;
    var s1 := WithRuntime(s, other, Bump(s.runtime[other], e, blocked));
    var r := Visit(c, s, other, e, blocked);
    BumpFollowed(c, s, other, e, blocked, mi);
    TransitionFollowed(c, s1, other, Signals.EventOf(e), mi);
    CountFollowed(c, s1, other, Signals.EventOf(e), mi);
    FollowedOn(c, s, s1, r, mi, 0, UsesOf(e, other, mi));
  }

  lemma VisitKeepsCounts(c: Config, s: Core.Core, other: nat, e: TriggerEvent, blocked: nat)
    requires HasMachine(c, s, other)
    ensures CountedFirst(s, e) ==> CountedFirst(Visit(c, s, other, e, blocked), e)
  {
    hide ValidConfig, Transition, TransitionAndCount;
  }

  lemma {:induction false} VisitFromFollowed(c: Config, s: Core.Core, from: nat, e: TriggerEvent, blocked: nat,
                                             mi: nat)
    requires HasMachine(c, s, mi) && from <= |c.machines| && CountedFirst(s, e) && !Addressed(e)
    ensures Followed(c, s, VisitFrom(c, s, from, e, blocked), mi, if from <= mi then Uses(e, mi) else 0)
    decreases |c.machines| - from
  {
    hide ValidConfig, Visit, Exhausted;
    if from < |c.machines| {
      var s1 := Visit(c, s, from, e, blocked);
      VisitFollowed(c, s, from, e, blocked, mi);
      VisitKeepsCounts(c, s, from, e, blocked);
      VisitFromFollowed(c, s1, from + 1, e, blocked, mi);
      FollowedOn(c, s, s1, VisitFrom(c, s1, from + 1, e, blocked), mi, UsesOf(e, from, mi),
                 if from + 1 <= mi then Uses(e, mi) else 0);
    }
  }

  lemma GlobalFollowed(c: Config, s: Core.Core, e: TriggerEvent, mi: nat)
    requires HasMachine(c, s, mi)
    ensures HasMachine(c, GlobalBooks(s, e), mi) && CountedFirst(GlobalBooks(s, e), e)
    ensures Followed(c, s, GlobalBooks(s, e), mi, 0)
  {
    hide ValidConfig, FracReached;
  }

  lemma EventFollowed(c: Config, s: Core.Core, e: TriggerEvent, mi: nat)
    requires HasMachine(c, s, mi)
    ensures Followed(c, s, ProcessEvent(c, s, e), mi, Uses(e, mi))
  {
    hide ValidConfig, Visit, VisitFrom, Followed, GlobalBooks;
    var s1 := GlobalBooks(s, e);
    GlobalFollowed(c, s, e, mi);
    if Addressed(e) {
      if e.machine < |c.machines| {
        VisitFollowed(c, s1, e.machine, e, 0, mi);
      } else {
        StandsStill(c, s1, mi);
      }
    } else {
      VisitFromFollowed(c, s1, 0, e, Unblocked(s), mi);
    }
    FollowedOn(c, s, s1, ProcessEvent(c, s, e), mi, 0, Uses(e, mi));
  }

  lemma {:induction false} EventsFollowed(c: Config, s: Core.Core, events: seq<TriggerEvent>, mi: nat)
    requires HasMachine(c, s, mi)
    ensures Followed(c, s, ProcessEvents(c, s, events), mi, UsesIn(events, mi))
    decreases |events|
  {
    hide ValidConfig, ProcessEvent, Exhausted;
    if events != [] {
      var s1 := ProcessEvent(c, s, events[0]);
      EventFollowed(c, s, events[0], mi);
      EventsFollowed(c, s1, events[1..], mi);
      FollowedOn(c, s, s1, ProcessEvents(c, s1, events[1..]), mi, Uses(events[0], mi), UsesIn(events[1..], mi));
    }
  }

  lemma {:induction false} SignalFollowed(c: Config, s: Core.Core, from: nat, excluded: Option<nat>, mi: nat)
    requires HasMachine(c, s, mi) && from <= |c.machines|
    ensures Followed(c, s, SignalFrom(c, s, from, excluded), mi, 0)
    decreases |c.machines| - from
  {
    hide ValidConfig, Transition, Exhausted;
    if from < |c.machines| {
      if excluded != Some(from) {
        TransitionFollowed(c, s, from, Signal, mi);
        SignalFollowed(c, Transition(c, s, from, Signal).core, from + 1, excluded, mi);
      } else {
        SignalFollowed(c, s, from + 1, excluded, mi);
      }
    }
  }

  lemma DeliverFollowed(c: Config, s: Core.Core, mi: nat)
    requires HasMachine(c, s, mi)
    ensures Followed(c, s, Deliver(c, s), mi, 0)
  {
    hide ValidConfig, Transition, SignalFrom;
    if s.signalPending.Some? {
      var excluded := Excluded(s.signalPending.value);
      SignalFollowed(c, Take(s), 0, excluded, mi);
      var s1 := SignalFrom(c, Take(s), 0, excluded);
      if s1.signalPending.Some? && excluded.Some? {
        TransitionFollowed(c, Take(s1), excluded.value, Signal, mi);
      }
    }
  }

  /**
   In a call during which machine mi does not leave its state, its limit falls by exactly the
   uses that the call reports, and once it is used up no action of the machine is returned.
   */
  lemma CallDuringVisit(c: Config, s: Core.Core, call: Call, mi: nat)
    requires HasMachine(c, s, mi)
    requires Left(mi) !in TriggerEvents(c, s, call.events, call.now).log
    ensures var r := TriggerEvents(c, s, call.events, call.now);
            && r.runtime[mi].currentState == s.runtime[mi].currentState
            && Used(s, r, mi, UsesIn(call.events, mi))
            && (Exhausted(c, s, mi) ==> Exhausted(c, r, mi) && r.actions[mi] == None)
  {
    hide ValidConfig, ProcessEvents, Deliver;
    var b := Begin(c, s, call.now);
    EventsFollowed(c, b, call.events, mi);
    var p := ProcessEvents(c, b, call.events);
    DeliverFollowed(c, p, mi);
    assert p.log <= Deliver(c, p).log;
    assert Left(mi) !in p.log;
    assert b.actions[mi] == None;
  }

  /** Machine mi stays in its state through all the calls. */
  predicate Stays(c: Config, s: Core.Core, calls: seq<Call>, mi: nat)
    requires WellFormed(c, s)
    decreases |calls|
  {
    calls != [] ==>
      var r := TriggerEvents(c, s, calls[0].events, calls[0].now);
      Left(mi) !in r.log && Stays(c, r, calls[1..], mi)
  }

  /** The state after k of the calls. */
  function After(c: Config, s: Core.Core, calls: seq<Call>, k: nat): (r: Core.Core)
    requires WellFormed(c, s) && k <= |calls|
    ensures WellFormed(c, r)
  {
    Run(c, s, calls[..k])
  }

  /**
   Through a visit of any number of calls the limit falls by exactly the uses reported, and once
   it is used up no call returns an action for the machine.
   */
  lemma {:induction false} LimitHoldsForVisit(c: Config, s: Core.Core, calls: seq<Call>, mi: nat, k: nat)
    requires HasMachine(c, s, mi) && Stays(c, s, calls, mi) && 0 < k <= |calls|
    ensures var r := After(c, s, calls, k);
            && r.runtime[mi].currentState == s.runtime[mi].currentState
            && Used(s, r, mi, UsesInCalls(calls[..k], mi))
            && (Exhausted(c, s, mi) ==> r.actions[mi] == None && Exhausted(c, r, mi))
    decreases |calls|
  {
    hide ValidConfig, TriggerEvents, Exhausted, UsesIn;
    CallDuringVisit(c, s, calls[0], mi);
    var r := TriggerEvents(c, s, calls[0].events, calls[0].now);
    assert calls[..k][1..] == calls[1..][..k - 1];
    if k > 1 {
      LimitHoldsForVisit(c, r, calls[1..], mi, k - 1);
    } else {
      assert Run(c, r, calls[..k][1..]) == r;
    }
  }

  // ---------- A used-up limit that does not hold ----------

  /** One machine that pads whenever a packet is received, at most half of its packets, and at most 0 times. */
  function Padder(): Config {
    var dist := Dist(0, true);
    var state := State(Some(SendPadding(false, false, dist, Some(dist))), None, None,
                       map[NormalRecv := [Trans(0, 1.0)]]);
    Config([Machine(0, 0.5, 0, 0.0, [state])], 0.0, 0.0, 0, Tape(k => 0.0, (d, k) => 0.0))
  }

  lemma PadderIsValid()
    ensures ValidConfig(Padder())
  {
    var v := [Trans(0, 1.0)];
    assert Prefix(v, 1) == Prefix(v, 0) + 1.0;
    assert ValidVector(v, 1);
    var m := Padder().machines[0];
    assert ValidState(m.states[0], 1);
  }

  function PadderStart(): Core.Core {
    Core.Core(0, 1, [None], [Runtime(0, 0, 0, 0, 0, 0, 0, 0, 0)], 0, 0, 0, 0, false, None, false, false, [], [])
  }

  lemma PadderStarts()
    ensures ValidConfig(Padder()) && Start(Padder()) == PadderStart()
  {
    PadderIsValid();
    hide ValidConfig;
    var c := Padder();
    assert Limit(c.machines[0].states[0].action.value) == Some(Dist(0, true));
    assert NoActions(c) == [None];
    assert AtStart(c).runtime == PadderStart().runtime;
    var s0 := PadderStart().(draws := 0);
    var (limit, s1) := SampleLimit(c, s0, c.machines[0].states[0].action.value);
    assert limit == 0 && s1 == PadderStart();
    var s2 := WithRuntime(s1, 0, s1.runtime[0].(stateLimit := 0));
    assert s2.runtime == PadderStart().runtime;
    assert StartLimits(c, s2, 1) == s2;
  }

  lemma PadderPads(s: Core.Core)
    requires HasMachine(Padder(), s, 0) && s == Begin(Padder(), PadderStart(), 0)
    ensures var r := Transition(Padder(), s, 0, NormalRecv).core;
            && r.actions == [Some(TASendPadding(0, 0, false, false))]
            && r.runtime[0].stateLimit == 0 && r.signalPending.None?
  {
    hide ValidConfig;
    var c := Padder();
    var v := c.machines[0].states[0].transitions[NormalRecv];
    assert Prefix(v, 1) == Prefix(v, 0) + 1.0;
    assert PickFrom(v, 0, 0.0) == Some(0);
    var s0 := WithNote(s, Fired(0, NormalRecv));
    var (next, s1) := Choose(c, s0, 0, NormalRecv);
    assert next == Some(0) && s1 == s0.(draws := s0.draws + 1);
    assert Enter(c, s1, 0, 0) == s1;
    assert BelowActionLimits(c, s1, 0);
    assert UpdateCounter(c, s1, 0) == Counted(s1, true, false);
    assert Micros(0.0, MAX_SAMPLED_TIMEOUT) == 0;
  }

  /** Its limit is used up from the start, and still the first packet received makes it pad. */
  lemma UsedUpLimitLetsPaddingThrough()
    ensures var c := Padder();
            && ValidConfig(c)
            && var s := Start(c);
               && Running(c, s, 0) && s.runtime[0].stateLimit == 0 && ZeroTotalExit(c, s, 0)
               && var r := TriggerEvents(c, s, [TENormalRecv], 0);
                  && r.runtime[0].stateLimit == 0
                  && r.actions == [Some(TASendPadding(0, 0, false, false))]
  {
    PadderStarts();
    hide ValidConfig, Transition, Start;
    var c, s := Padder(), PadderStart();
    var b := Begin(c, s, 0);
    PadderPads(b);
    var r := Transition(c, b, 0, NormalRecv).core;
    assert Visit(c, b, 0, TENormalRecv, 0) == r by {
      assert b.runtime[0 := b.runtime[0]] == b.runtime;
    }
    assert VisitFrom(c, b, 0, TENormalRecv, 0) == r;
    assert ProcessEvents(c, b, [TENormalRecv]) == ProcessEvents(c, r, []) by {
      assert [TENormalRecv][1..] == [];
    }
    assert Deliver(c, r) == r;
  }

  /** In a balanced state a machine that has counted a packet needs no further condition. */
  lemma CountedPacketSuffices(c: Config, s: Core.Core, mi: nat)
    requires Running(c, s, mi) && Balanced(s)
    requires s.runtime[mi].stateLimit == 0
    requires Current(c, s, mi).action.Some? && !Current(c, s, mi).action.value.Cancel?
    requires s.runtime[mi].normalSent + s.runtime[mi].paddingSent > 0
    ensures Exhausted(c, s, mi)
  {
    assert Agrees(s, s.runtime[mi]);
  }
}
