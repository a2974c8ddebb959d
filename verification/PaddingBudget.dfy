/**
 What the limits allow, and the padding budget in closed loop: an integrator reports one
 event per call, keeps one action timer per machine, and reports PaddingSent only by firing
 a pending SendPadding.
 */
module PaddingBudget {
  import opened Prelude
  import opened Machines
  import opened Core = FrameworkSpec
  import opened Accounting
  import Signals

  predicate Padding(a: Option<TriggerAction>) {
    a.Some? && a.value.TASendPadding?
  }

  /** The packets a machine may pad with before the global fraction counts; 1 is the zero-total exit. */
  function Allowance(c: Config, i: nat): nat
    requires i < |c.machines|
  {
    if c.machines[i].allowedPaddingPackets == 0 then 1 else c.machines[i].allowedPaddingPackets
  }

  /** The fraction f of n packets. */
  function Share(f: real, n: nat): real {
    f * n as real
  }

  lemma ShareMonotone(f: real, a: nat, b: nat)
    requires f >= 0.0 && a <= b
    ensures Share(f, a) <= Share(f, b)
  {
    var d := (b - a) as real;
    assert b as real == a as real + d;
    assert f * (a as real + d) == f * a as real + f * d;
  }

  /** What a scheduled padding packet of machine i says about the books. */
  predicate Granted(c: Config, s: Core.Core, i: nat)
    requires i < |c.machines| == |s.runtime|
  {
    var rt := s.runtime[i];
    var m := c.machines[i];
    && (m.maxPaddingFrac > 0.0 ==>
          || rt.paddingSent < m.allowedPaddingPackets
          || rt.paddingSent as real <= Share(m.maxPaddingFrac, rt.normalSent + rt.paddingSent))
    && (c.maxPaddingFrac > 0.0 ==>
          || rt.paddingSent < Allowance(c, i)
          || s.paddingSent as real <= Share(c.maxPaddingFrac, s.normalSent + s.paddingSent))
  }

  /** Strictly less than the fraction f of the elapsed time; of no time, nothing at all. */
  predicate BelowFrac(blocked: nat, elapsed: nat, f: real) {
    if elapsed == 0 then blocked == 0 else blocked as real < f * elapsed as real
  }

  /** What scheduled blocking of machine i says about the books, ongoing blocking included. */
  predicate BlockingGranted(c: Config, s: Core.Core, i: nat, replace: bool)
    requires i < |c.machines| == |s.runtime|
  {
    var rt := s.runtime[i];
    var m := c.machines[i];
    || (replace && s.blockingActive)
    || rt.blockingDuration + Unblocked(s) < rt.allowedBlocked
    || (&& (m.maxBlockingFrac > 0.0 ==>
              BelowFrac(rt.blockingDuration + Unblocked(s), Since(s.now, rt.machineStart), m.maxBlockingFrac))
        && (c.maxBlockingFrac > 0.0 ==>
              BelowFrac(s.blockingDuration + Unblocked(s), Since(s.now, c.start), c.maxBlockingFrac)))
  }

  /** The action in slot i is granted by the books. */
  ghost predicate Fair(c: Config, s: Core.Core, i: nat)
    requires i < |c.machines| == |s.runtime| == |s.actions|
  {
    && (Padding(s.actions[i]) ==> Granted(c, s, i))
    && (s.actions[i].Some? && s.actions[i].value.TABlockOutgoing? ==>
          BlockingGranted(c, s, i, s.actions[i].value.replace))
  }

  lemma BelowLimitGrants(c: Config, s: Core.Core, mi: nat)
    requires Running(c, s, mi) && BelowLimitPadding(c, s, mi)
    ensures Granted(c, s, mi)
  {
    hide ValidConfig;
  }

  lemma BelowLimitGrantsBlocking(c: Config, s: Core.Core, mi: nat, replace: bool)
    requires Running(c, s, mi) && BelowLimitBlocking(c, s, mi, replace)
    ensures BlockingGranted(c, s, mi, replace)
  {
    hide ValidConfig;
  }

  lemma {:induction false} TransitionFair(c: Config, s: Core.Core, mi: nat, e: Event)
    requires HasMachine(c, s, mi) && Fair(c, s, mi)
    ensures Fair(c, Transition(c, s, mi, e).core, mi)
    decreases Unzeroed(s), 2
  {
    hide ValidConfig, MoveTo, Choose, Fair, OnlyMoved;
    var r := Transition(c, s, mi, e).core;
    var s0 := WithNote(s, Fired(mi, e));
    if s.runtime[mi].currentState == STATE_END {
      FairKept(c, s, s0, mi);
    } else {
      var (next, s1) := Choose(c, s0, mi, e);
      NotesAndDraws(s, s1, mi);
      FairKept(c, s, s1, mi);
      if next.None? || next.value == STATE_SIGNAL || next.value == STATE_END {
        FairKept(c, s, r, mi);
      } else {
        MoveToFair(c, s1, mi, next.value);
      }
    }
  }

  /** The same action stays fair, by the same books. */
  lemma FairKept(c: Config, s: Core.Core, r: Core.Core, mi: nat)
    requires mi < |c.machines| == |s.runtime| == |s.actions|
    requires OnlyMoved(s, r, mi) && r.actions == s.actions
    ensures Fair(c, s, mi) == Fair(c, r, mi)
  {
    hide Granted, BlockingGranted;
    GrantedKept(c, s, r, mi);
  }

  lemma NotesAndDraws(s: Core.Core, r: Core.Core, mi: nat)
    requires mi < |s.runtime| && r == s.(draws := r.draws, log := r.log)
    ensures OnlyMoved(s, r, mi)
  {
  }

  lemma {:induction false} MoveToFair(c: Config, s: Core.Core, mi: nat, next: nat)
    requires Running(c, s, mi) && next < |c.machines[mi].states| && Fair(c, s, mi)
    ensures Fair(c, MoveTo(c, s, mi, next).core, mi)
    decreases Unzeroed(s), 1
  {
    hide ValidConfig, UpdateCounter, BelowActionLimits, Enter, Granted, BlockingGranted;
    var s1 := Enter(c, s, mi, next);
    GrantedKept(c, s, s1, mi);
    UpdateCounterFair(c, s1, mi);
    var k := UpdateCounter(c, s1, mi).core;
    GrantedKept(c, s1, k, mi);
    if BelowActionLimits(c, s1, mi) {
      ScheduledFair(c, s1, k, mi, next);
      GrantedKept(c, k, ScheduleAction(c, k, mi, next), mi);
    }
    GrantedKept(c, s, MoveTo(c, s, mi, next).core, mi);
  }

  lemma GrantedKept(c: Config, s: Core.Core, r: Core.Core, mi: nat)
    requires mi < |c.machines| == |s.runtime| && OnlyMoved(s, r, mi)
    ensures Granted(c, s, mi) == Granted(c, r, mi)
    ensures forall replace :: BlockingGranted(c, s, mi, replace) == BlockingGranted(c, r, mi, replace)
  {
  }

  /** What is scheduled in k was allowed by the limits in s, and the books are the same. */
  lemma ScheduledFair(c: Config, s: Core.Core, k: Core.Core, mi: nat, state: nat)
    requires Running(c, s, mi) && HasMachine(c, k, mi) && OnlyMoved(s, k, mi)
    requires s.runtime[mi].currentState == state && BelowActionLimits(c, s, mi)
    ensures Fair(c, ScheduleAction(c, k, mi, state), mi)
  {
    hide ValidConfig, Granted, BlockingGranted;
    GrantedKept(c, s, ScheduleAction(c, k, mi, state), mi);
    match Current(c, s, mi).action
    case Some(SendPadding(_, _, _, _)) => BelowLimitGrants(c, s, mi);
    case Some(BlockOutgoing(_, replace, _, _, _)) => BelowLimitGrantsBlocking(c, s, mi, replace);
    case _ =>
  }

  lemma {:induction false} UpdateCounterFair(c: Config, s: Core.Core, mi: nat)
    requires Running(c, s, mi) && Fair(c, s, mi)
    ensures Fair(c, UpdateCounter(c, s, mi).core, mi)
    decreases Unzeroed(s), 0
  {
    hide ValidConfig, Transition, UpdateBoth;
    var (s1, zeroed) := UpdateBoth(c, s, mi);
    assert s1.actions == s.actions by {
      UpdateBothActions(c, s, mi);
    }
    if zeroed {
      TransitionFair(c, s1, mi, CounterZero);
    }
  }

  lemma UpdateBothActions(c: Config, s: Core.Core, mi: nat)
    requires Running(c, s, mi)
    ensures UpdateBoth(c, s, mi).0.actions == s.actions
  {
  }

  lemma CountFair(c: Config, s: Core.Core, mi: nat, e: Event)
    requires HasMachine(c, s, mi) && Fair(c, s, mi)
    ensures Fair(c, TransitionAndCount(c, s, mi, e), mi)
  {
    hide ValidConfig, Transition, OnlyMoved;
    TransitionFair(c, s, mi, e);
    var t := Transition(c, s, mi, e).core;
    if t.runtime[mi].currentState != STATE_END {
      var rt := t.runtime[mi];
      var s1 := WithRuntime(t, mi, rt.(stateLimit := if rt.stateLimit > 0 then rt.stateLimit - 1 else 0));
      TransitionFair(c, WithAction(s1, mi, None), mi, LimitReached);
    }
  }

  /** A visit that finds the slot empty leaves it fair, whatever it adds to the books first. */
  lemma VisitFair(c: Config, s: Core.Core, mi: nat, e: TriggerEvent, blocked: nat)
    requires HasMachine(c, s, mi) && s.actions[mi] == None
    ensures var r := Visit(c, s, mi, e, blocked);
            && Fair(c, r, mi) && SameGlobalBooks(s, r)
            && (forall j :: 0 <= j < |c.machines| && j != mi ==>
                  r.actions[j] == s.actions[j] && r.runtime[j] == s.runtime[j])
  {
    hide ValidConfig, Transition, TransitionAndCount;
    var s1 := WithRuntime(s, mi, Bump(s.runtime[mi], e, blocked));
    TransitionFair(c, s1, mi, Signals.EventOf(e));
    CountFair(c, s1, mi, Signals.EventOf(e));
  }

  lemma {:induction false} VisitFromFair(c: Config, s: Core.Core, mi: nat, e: TriggerEvent, blocked: nat)
    requires WellFormed(c, s) && mi <= |c.machines|
    requires forall j :: 0 <= j < mi ==> Fair(c, s, j)
    requires forall j :: mi <= j < |c.machines| ==> s.actions[j] == None
    ensures forall j :: 0 <= j < |c.machines| ==> Fair(c, VisitFrom(c, s, mi, e, blocked), j)
    decreases |c.machines| - mi
  {
    hide ValidConfig, Visit;
    if mi < |c.machines| {
      VisitFair(c, s, mi, e, blocked);
      var s1 := Visit(c, s, mi, e, blocked);
      forall j | 0 <= j < mi + 1
        ensures Fair(c, s1, j)
      {
        assert j < mi ==> Fair(c, s, j);
      }
      VisitFromFair(c, s1, mi + 1, e, blocked);
    }
  }

  lemma {:induction false} SignalFair(c: Config, s: Core.Core, mi: nat, excluded: Option<nat>)
    requires WellFormed(c, s) && mi <= |c.machines|
    requires forall j :: 0 <= j < |c.machines| ==> Fair(c, s, j)
    ensures forall j :: 0 <= j < |c.machines| ==> Fair(c, SignalFrom(c, s, mi, excluded), j)
    decreases |c.machines| - mi
  {
    hide ValidConfig, Transition;
    if mi < |c.machines| {
      if excluded == Some(mi) {
        SignalFair(c, s, mi + 1, excluded);
      } else {
        AllFair(c, s, mi);
        SignalFair(c, Transition(c, s, mi, Signal).core, mi + 1, excluded);
      }
    }
  }

  lemma AllFair(c: Config, s: Core.Core, mi: nat)
    requires HasMachine(c, s, mi)
    requires forall j :: 0 <= j < |c.machines| ==> Fair(c, s, j)
    ensures forall j :: 0 <= j < |c.machines| ==> Fair(c, Transition(c, s, mi, Signal).core, j)
  {
    hide ValidConfig, Transition;
    TransitionFair(c, s, mi, Signal);
    var r := Transition(c, s, mi, Signal).core;
    forall j | 0 <= j < |c.machines|
      ensures Fair(c, r, j)
    {
      assert Fair(c, s, j);
    }
  }

  /** Every padding packet and every blocking that a single-event call returns is granted by the books after it. */
  lemma CallFair(c: Config, s: Core.Core, e: TriggerEvent, now: int)
    requires WellFormed(c, s)
    ensures var r := TriggerEvents(c, s, [e], now);
            && (forall i :: 0 <= i < |c.machines| ==> Fair(c, r, i))
            && r.normalSent == GlobalBooks(s, e).normalSent && r.paddingSent == GlobalBooks(s, e).paddingSent
            && (forall i :: 0 <= i < |c.machines| ==> Counted(s, r, i, e))
  {
    hide ValidConfig, ProcessEvent, Deliver, Fair, GlobalBooks, Counted;
    var b := Begin(c, s, now);
    var p := ProcessEvent(c, b, e);
    OneEvent(c, b, e);
    EventFair(c, b, e);
    DeliverFair(c, p);
    forall i | 0 <= i < |c.machines|
      ensures Counted(s, Deliver(c, p), i, e)
    {
      EventCounted(c, s, e, now, i);
    }
    GlobalCounted(c, s, e, now);
  }

  lemma OneEvent(c: Config, b: Core.Core, e: TriggerEvent)
    requires WellFormed(c, b)
    ensures ProcessEvents(c, b, [e]) == ProcessEvent(c, b, e)
  {
    hide ValidConfig, ProcessEvent;
    assert [e][1..] == [];
    assert ProcessEvents(c, ProcessEvent(c, b, e), []) == ProcessEvent(c, b, e);
  }

  /** An event that finds all slots empty leaves them fair. */
  lemma EventFair(c: Config, b: Core.Core, e: TriggerEvent)
    requires WellFormed(c, b) && b.actions == NoActions(c)
    ensures forall i :: 0 <= i < |c.machines| ==> Fair(c, ProcessEvent(c, b, e), i)
  {
    hide ValidConfig, Visit, VisitFrom, Granted, BlockingGranted;
    if Addressed(e) {
      if e.machine < |c.machines| {
        VisitFair(c, GlobalBooks(b, e), e.machine, e, 0);
      }
    } else {
      VisitFromFair(c, GlobalBooks(b, e), 0, e, Unblocked(b));
    }
  }

  lemma EventCounted(c: Config, s: Core.Core, e: TriggerEvent, now: int, i: nat)
    requires WellFormed(c, s) && i < |c.machines|
    ensures Counted(s, Deliver(c, ProcessEvent(c, Begin(c, s, now), e)), i, e)
  {
    hide ValidConfig, ProcessEvent, Deliver;
    var b := Begin(c, s, now);
    var p := ProcessEvent(c, b, e);
    EventBooks(c, b, e);
    DeliverBooks(c, p);
    assert SameBooks(p.runtime[i], Deliver(c, p).runtime[i]);
    assert Reaches(e, i) || !Reaches(e, i);
  }

  lemma GlobalCounted(c: Config, s: Core.Core, e: TriggerEvent, now: int)
    requires WellFormed(c, s)
    ensures var r := Deliver(c, ProcessEvent(c, Begin(c, s, now), e));
            r.normalSent == GlobalBooks(s, e).normalSent && r.paddingSent == GlobalBooks(s, e).paddingSent
  {
    hide ValidConfig, ProcessEvent, Deliver;
    var b := Begin(c, s, now);
    EventBooks(c, b, e);
    DeliverBooks(c, ProcessEvent(c, b, e));
  }

  /** Machine i's packet counts after event e. */
  predicate Counted(s: Core.Core, r: Core.Core, i: nat, e: TriggerEvent)
    requires i < |s.runtime| && i < |r.runtime|
  {
    && r.runtime[i].paddingSent == s.runtime[i].paddingSent + (if e == TEPaddingSent(i) then 1 else 0)
    && r.runtime[i].normalSent == s.runtime[i].normalSent + (if e == TENormalSent then 1 else 0)
  }

  lemma DeliverFair(c: Config, s: Core.Core)
    requires WellFormed(c, s)
    requires forall j :: 0 <= j < |c.machines| ==> Fair(c, s, j)
    ensures forall j :: 0 <= j < |c.machines| ==> Fair(c, Deliver(c, s), j)
  {
    hide ValidConfig, Transition, SignalFrom, Fair;
    if s.signalPending.Some? {
      var excluded := Excluded(s.signalPending.value);
      TakeFair(c, s);
      SignalFair(c, Take(s), 0, excluded);
      var s1 := SignalFrom(c, Take(s), 0, excluded);
      if s1.signalPending.Some? {
        TakeFair(c, s1);
        if excluded.Some? {
          AllFair(c, Take(s1), excluded.value);
        }
      }
    }
  }

  lemma TakeFair(c: Config, s: Core.Core)
    requires WellFormed(c, s)
    ensures forall j :: 0 <= j < |c.machines| ==> Fair(c, s, j) == Fair(c, Take(s), j)
  {
    hide ValidConfig, FracReached, BelowFrac;
  }

  // ---------- The closed loop ----------

  /** The framework and the integrator's action timers, one per machine. */
  datatype Loop = Loop(core: Core.Core, timers: seq<Option<TriggerAction>>)

  datatype Report = Report(event: TriggerEvent, now: int)

  /** A returned action sets or cancels the machine's action timer. */
  function Arm(timer: Option<TriggerAction>, returned: Option<TriggerAction>): Option<TriggerAction> {
    match returned
    case None => timer
    case Some(TASendPadding(_, _, _, _)) => returned
    case Some(TABlockOutgoing(_, _, _, _, _)) => returned
    case Some(TACancel(_, kind)) => if kind == InternalTimer then timer else None
    case Some(TAUpdateTimer(_, _, _)) => timer
  }

  /** PaddingSent and BlockingBegin fire a timer that holds the matching action. */
  predicate Lawful(c: Config, timers: seq<Option<TriggerAction>>, e: TriggerEvent) {
    && |timers| == |c.machines|
    && (e.TEPaddingSent? ==> e.machine < |timers| && Padding(timers[e.machine]))
    && (e.TEBlockingBegin? ==>
          e.machine < |timers| && timers[e.machine].Some? && timers[e.machine].value.TABlockOutgoing?)
  }

  function Fire(timers: seq<Option<TriggerAction>>, e: TriggerEvent): seq<Option<TriggerAction>> {
    if (e.TEPaddingSent? || e.TEBlockingBegin?) && e.machine < |timers| then timers[e.machine := None] else timers
  }

  function Step(c: Config, l: Loop, r: Report): (l': Loop)
    requires WellFormed(c, l.core) && Lawful(c, l.timers, r.event)
    ensures WellFormed(c, l'.core) && |l'.timers| == |l.timers|
  {
    var core := TriggerEvents(c, l.core, [r.event], r.now);
    var fired := Fire(l.timers, r.event);
    Loop(core, seq(|fired|, i requires 0 <= i < |fired| =>
                     if i < |core.actions| then Arm(fired[i], core.actions[i]) else None))
  }

  /** The loop after the reports, if every report was lawful. */
  function Closed(c: Config, l: Loop, reports: seq<Report>): Option<Loop>
    requires WellFormed(c, l.core)
    decreases |reports|
  {
    if reports == [] then Some(l)
    else if !Lawful(c, l.timers, reports[0].event) then None
    else Closed(c, Step(c, l, reports[0]), reports[1..])
  }

  function StartLoop(c: Config): (l: Loop)
    requires ValidConfig(c)
    ensures WellFormed(c, l.core)
  {
    Loop(Start(c), NoActions(c))
  }

  // ---------- The machine's own budget ----------

  function Pending(l: Loop, i: nat): nat
    requires i < |l.timers|
  {
    if Padding(l.timers[i]) then 1 else 0
  }

  /** Sent plus pending padding is within the allowance or within the fraction plus one. */
  predicate Within(c: Config, l: Loop, i: nat)
    requires i < |c.machines| == |l.timers| == |l.core.runtime|
  {
    var rt := l.core.runtime[i];
    var m := c.machines[i];
    m.maxPaddingFrac > 0.0 ==>
      || rt.paddingSent + Pending(l, i) <= m.allowedPaddingPackets
      || (rt.paddingSent + Pending(l, i)) as real
         <= Share(m.maxPaddingFrac, rt.normalSent + rt.paddingSent) + 1.0
  }

  lemma StepWithin(c: Config, l: Loop, r: Report, i: nat)
    requires WellFormed(c, l.core) && Lawful(c, l.timers, r.event) && i < |c.machines|
    requires Within(c, l, i)
    ensures Within(c, Step(c, l, r), i)
  {
    hide ValidConfig, TriggerEvents, Within, Granted;
    CallFair(c, l.core, r.event, r.now);
    assert 0.0 <= c.machines[i].maxPaddingFrac by {
      FracNotNegative(c, i);
    }
    var l' := Step(c, l, r);
    assert Counted(l.core, l'.core, i, r.event) && Fair(c, l'.core, i);
    WithinKept(c, l, l', r.event, i);
  }

  lemma FracNotNegative(c: Config, i: nat)
    requires ValidConfig(c) && i < |c.machines|
    ensures 0.0 <= c.machines[i].maxPaddingFrac
  {
    assert ValidMachine(c.machines[i]);
  }

  /** The same for any two loop states related as a report relates them. */
  lemma WithinKept(c: Config, l: Loop, l': Loop, e: TriggerEvent, i: nat)
    requires i < |c.machines| == |l.timers| == |l.core.runtime| == |l'.timers| == |l'.core.runtime| == |l'.core.actions|
    requires 0.0 <= c.machines[i].maxPaddingFrac && Lawful(c, l.timers, e)
    requires Counted(l.core, l'.core, i, e) && Fair(c, l'.core, i)
    requires l'.timers[i] == Arm(Fire(l.timers, e)[i], l'.core.actions[i])
    requires Within(c, l, i)
    ensures Within(c, l', i)
  {
    var before, after := l.core.runtime[i], l'.core.runtime[i];
    ShareMonotone(c.machines[i].maxPaddingFrac, before.normalSent + before.paddingSent,
                  after.normalSent + after.paddingSent);
    hide Share;
  }

  // ---------- The global budget ----------

  /** What machine i may still send or has pending beyond the books: unused allowance, or one global grant. */
  function Open(c: Config, l: Loop, i: nat): nat
    requires i < |c.machines| == |l.timers| == |l.core.runtime|
  {
    var sent := l.core.runtime[i].paddingSent;
    if sent < Allowance(c, i) then Allowance(c, i) - sent else Pending(l, i)
  }

  function OpenTotal(c: Config, l: Loop, k: nat): nat
    requires k <= |c.machines| == |l.timers| == |l.core.runtime|
  {
    if k == 0 then 0 else OpenTotal(c, l, k - 1) + Open(c, l, k - 1)
  }

  /** The sum of the allowances of the first k machines. */
  function Allowances(c: Config, k: nat): nat
    requires k <= |c.machines|
  {
    if k == 0 then 0 else Allowances(c, k - 1) + Allowance(c, k - 1)
  }

  predicate GlobalWithin(c: Config, l: Loop)
    requires |c.machines| == |l.timers| == |l.core.runtime|
  {
    var n := |c.machines|;
    c.maxPaddingFrac > 0.0 ==>
      (l.core.paddingSent + OpenTotal(c, l, n)) as real
      <= Share(c.maxPaddingFrac, l.core.normalSent + l.core.paddingSent) + (n + Allowances(c, n)) as real
  }

  lemma {:induction false} OpenAtMost(c: Config, l: Loop, k: nat)
    requires k <= |c.machines| == |l.timers| == |l.core.runtime|
    ensures OpenTotal(c, l, k) <= k + Allowances(c, k)
  {
    if k > 0 {
      OpenAtMost(c, l, k - 1);
    }
  }

  /** Sending uses up what was open for that machine. */
  lemma {:induction false} OpenFalls(c: Config, l: Loop, l': Loop, e: TriggerEvent, k: nat)
    requires k <= |c.machines| == |l.timers| == |l.core.runtime| == |l'.timers| == |l'.core.runtime|
    requires forall i :: 0 <= i < k ==>
               Open(c, l', i) + (if e == TEPaddingSent(i) then 1 else 0) <= Open(c, l, i)
    ensures OpenTotal(c, l', k) + (if e.TEPaddingSent? && e.machine < k then 1 else 0) <= OpenTotal(c, l, k)
  {
    if k > 0 {
      OpenFalls(c, l, l', e, k - 1);
      assert Open(c, l', k - 1) + (if e == TEPaddingSent(k - 1) then 1 else 0) <= Open(c, l, k - 1);
    }
  }

  /** Machine i has padding pending that only the global fraction allowed, scheduled by this very call. */
  predicate NewGrant(c: Config, l': Loop, i: nat)
    requires i < |c.machines| == |l'.core.runtime| == |l'.core.actions|
  {
    Padding(l'.core.actions[i]) && l'.core.runtime[i].paddingSent >= Allowance(c, i)
  }

  lemma StepGlobal(c: Config, l: Loop, r: Report)
    requires WellFormed(c, l.core) && Lawful(c, l.timers, r.event) && GlobalWithin(c, l)
    ensures GlobalWithin(c, Step(c, l, r))
  {
    hide ValidConfig, TriggerEvents, Share;
    CallFair(c, l.core, r.event, r.now);
    var l' := Step(c, l, r);
    var n := |c.machines|;
    if c.maxPaddingFrac > 0.0 {
      if i :| 0 <= i < n && NewGrant(c, l', i) {
        assert Fair(c, l'.core, i);
        OpenAtMost(c, l', n);
      } else {
        forall i | 0 <= i < n
          ensures Open(c, l', i) + (if r.event == TEPaddingSent(i) then 1 else 0) <= Open(c, l, i)
        {
          assert Counted(l.core, l'.core, i, r.event) && !NewGrant(c, l', i);
        }
        OpenFalls(c, l, l', r.event, n);
        ShareMonotone(c.maxPaddingFrac, l.core.normalSent + l.core.paddingSent,
                      l'.core.normalSent + l'.core.paddingSent);
      }
    }
  }

  // ---------- Every run ----------

  ghost predicate AllWithin(c: Config, l: Loop) {
    && WellFormed(c, l.core) && |l.timers| == |c.machines|
    && GlobalWithin(c, l)
    && forall i :: 0 <= i < |c.machines| ==> Within(c, l, i)
  }

  lemma {:induction false} ClosedWithin(c: Config, l: Loop, reports: seq<Report>)
    requires AllWithin(c, l) && Closed(c, l, reports).Some?
    ensures AllWithin(c, Closed(c, l, reports).value)
    decreases |reports|
  {
    hide ValidConfig, Step, Within, GlobalWithin;
    if reports != [] {
      StepGlobal(c, l, reports[0]);
      forall i | 0 <= i < |c.machines|
        ensures Within(c, Step(c, l, reports[0]), i)
      {
        StepWithin(c, l, reports[0], i);
      }
      ClosedWithin(c, Step(c, l, reports[0]), reports[1..]);
    }
  }

  function MaxReal(a: real, b: real): real {
    if a <= b then b else a
  }

  lemma StartWithin(c: Config)
    requires ValidConfig(c)
    ensures AllWithin(c, StartLoop(c))
  {
    StartBooks(c);
    hide ValidConfig, Start, Share;
    var l := StartLoop(c);
    forall i | 0 <= i < |c.machines|
      ensures Within(c, l, i)
    {
      assert SameBooks(StartRuntime(c, i), l.core.runtime[i]);
      NothingSent(c, l, i);
    }
    hide Within;
    OpenAtMost(c, l, |c.machines|);
    assert Share(c.maxPaddingFrac, 0) == 0.0 by { ShareOfNothing(c.maxPaddingFrac); }
  }

  lemma ShareOfNothing(f: real)
    ensures Share(f, 0) == 0.0
  {
  }

  lemma NothingSent(c: Config, l: Loop, i: nat)
    requires i < |c.machines| == |l.timers| == |l.core.runtime|
    requires l.core.runtime[i].paddingSent == 0 && l.core.runtime[i].normalSent == 0 && l.timers[i] == None
    ensures Within(c, l, i)
  {
    ShareOfNothing(c.machines[i].maxPaddingFrac);
  }

  /** Machine i's own budget, once its pending packet is dropped from the count. */
  predicate OwnBudget(m: Machine, rt: Runtime) {
    m.maxPaddingFrac > 0.0 ==>
      rt.paddingSent as real
      <= MaxReal(m.allowedPaddingPackets as real, Share(m.maxPaddingFrac, rt.normalSent + rt.paddingSent) + 1.0)
  }

  lemma WithinOwnBudget(c: Config, l: Loop, i: nat)
    requires i < |c.machines| == |l.timers| == |l.core.runtime| && Within(c, l, i)
    ensures OwnBudget(c.machines[i], l.core.runtime[i])
  {
    hide Share;
  }

  /**
   In every lawful run from the start, each machine with a padding fraction stays within its
   allowance or its fraction of its own packets plus one; and with a global fraction, all
   padding together stays within that fraction of all packets, one packet per machine, and
   the allowances (at least one packet each).
   */
  lemma PaddingStaysInBudget(c: Config, reports: seq<Report>)
    requires ValidConfig(c) && Closed(c, StartLoop(c), reports).Some?
    ensures var s := Closed(c, StartLoop(c), reports).value.core;
            && |s.runtime| == |c.machines|
            && (forall i :: 0 <= i < |c.machines| ==> OwnBudget(c.machines[i], s.runtime[i]))
            && (c.maxPaddingFrac > 0.0 ==>
                  s.paddingSent as real
                  <= Share(c.maxPaddingFrac, s.normalSent + s.paddingSent)
                     + (|c.machines| + Allowances(c, |c.machines|)) as real)
  {
    hide ValidConfig, StartLoop, Closed, Share, Within, OwnBudget, OpenTotal;
    StartWithin(c);
    ClosedWithin(c, StartLoop(c), reports);
    var end := Closed(c, StartLoop(c), reports).value;
    forall i | 0 <= i < |c.machines|
      ensures OwnBudget(c.machines[i], end.core.runtime[i])
    {
      WithinOwnBudget(c, end, i);
    }
  }
}
