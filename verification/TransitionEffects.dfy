/**
 What one transition of a machine does, told by the constructors and fields of its state and
 action: which state it ends in, when CounterZero follows, and whose action is in its slot.
 */
module TransitionEffects {
  import opened Prelude
  import opened Machines
  import opened Core = FrameworkSpec
  import Limits

  // ---------- What the limits allow ----------

  /** The padding limit by its fields: allowance, own share, then the share of all machines. */
  predicate PaddingAllowed(c: Config, s: Core.Core, mi: nat)
    requires mi < |c.machines| && mi < |s.runtime|
  {
    var rt := s.runtime[mi];
    var m := c.machines[mi];
    var own := rt.normalSent + rt.paddingSent;
    var all := s.normalSent + s.paddingSent;
    if rt.paddingSent < m.allowedPaddingPackets then rt.stateLimit > 0
    else if m.maxPaddingFrac > 0.0 && own == 0 then true
    else
      && (m.maxPaddingFrac > 0.0 ==> rt.paddingSent as real < m.maxPaddingFrac * own as real)
      && (|| (c.maxPaddingFrac > 0.0 && all == 0)
          || (&& rt.stateLimit > 0
              && (c.maxPaddingFrac > 0.0 ==> s.paddingSent as real < c.maxPaddingFrac * all as real)))
  }

  /** Strictly less than the fraction of the time since `from`; of no time, nothing at all. */
  predicate ShareFree(blocked: nat, now: int, from: int, frac: real) {
    frac > 0.0 ==> if now <= from then blocked == 0 else blocked as real < frac * (now - from) as real
  }

  /** The blocking limit by its fields; the blocking going on counts as blocked time. */
  predicate BlockingAllowed(c: Config, s: Core.Core, mi: nat, replace: bool)
    requires mi < |c.machines| && mi < |s.runtime|
  {
    var rt := s.runtime[mi];
    var m := c.machines[mi];
    var ongoing := if s.blockingActive && s.blockingStarted < s.now then s.now - s.blockingStarted else 0;
    && rt.stateLimit > 0
    && (|| (replace && s.blockingActive)
        || rt.blockingDuration + ongoing < rt.allowedBlocked
        || (&& ShareFree(rt.blockingDuration + ongoing, s.now, rt.machineStart, m.maxBlockingFrac)
            && ShareFree(s.blockingDuration + ongoing, s.now, c.start, c.maxBlockingFrac)))
  }

  /** Whether an action may be scheduled in state s. */
  predicate Allowed(c: Config, s: Core.Core, mi: nat, a: Option<Action>)
    requires mi < |c.machines| && mi < |s.runtime|
  {
    match a
    case None => false
    case Some(Cancel(_)) => true
    case Some(UpdateTimer(_, _, _)) => s.runtime[mi].stateLimit > 0
    case Some(SendPadding(_, _, _, _)) => PaddingAllowed(c, s, mi)
    case Some(BlockOutgoing(_, replace, _, _, _)) => BlockingAllowed(c, s, mi, replace)
  }

  lemma PaddingAllowedExactly(c: Config, s: Core.Core, mi: nat)
    requires Running(c, s, mi)
    ensures BelowLimitPadding(c, s, mi) <==> PaddingAllowed(c, s, mi)
  {
    hide ValidConfig;
  }

  lemma BlockingAllowedExactly(c: Config, s: Core.Core, mi: nat, replace: bool)
    requires Running(c, s, mi)
    ensures BelowLimitBlocking(c, s, mi, replace) <==> BlockingAllowed(c, s, mi, replace)
  {
    hide ValidConfig;
  }

  lemma AllowedExactly(c: Config, s: Core.Core, mi: nat)
    requires Running(c, s, mi)
    ensures BelowActionLimits(c, s, mi)
            <==> Allowed(c, s, mi, c.machines[mi].states[s.runtime[mi].currentState].action)
  {
    PaddingAllowedExactly(c, s, mi);
    BlockingAllowedExactly(c, s, mi, true);
    BlockingAllowedExactly(c, s, mi, false);
    hide ValidConfig, BelowLimitPadding, BelowLimitBlocking, PaddingAllowed, BlockingAllowed;
  }

  // ---------- Amounts ----------

  /** n is the integer nearest to x, a half upwards, or the largest one there is. */
  ghost predicate Nearest(x: NonNegative, n: nat) {
    n <= U64_MAX && n as real <= x + 0.5 && (x + 0.5 < n as real + 1.0 || n == U64_MAX)
  }

  /** The duration in whole microseconds, a day at most, in nanoseconds. */
  ghost predicate ADayAtMost(x: NonNegative, duration: nat) {
    exists micros: nat :: Nearest(if x <= 86_400_000_000.0 then x else 86_400_000_000.0, micros)
                          && duration == 1000 * micros
  }

  lemma RoundsToNearest(x: NonNegative)
    ensures Nearest(x, RoundToU64(x))
  {
  }

  lemma MicrosADayAtMost(x: NonNegative, cap: NonNegative)
    requires cap == 86_400_000_000.0
    ensures ADayAtMost(x, Micros(x, cap))
  {
    RoundsToNearest(Capped(x, cap));
  }

  /** Slot and draws after action a of machine mi was scheduled with the draws from k on. */
  ghost predicate Shows(tape: Tape, k: nat, mi: nat, a: Option<Action>, slot: Option<TriggerAction>, draws: nat) {
    match a
    case None => slot == None && draws == k
    case Some(Cancel(timer)) => slot == Some(TACancel(mi, timer)) && draws == k
    case Some(SendPadding(bypass, replace, timeout, _)) =>
      && slot.Some? && slot.value.TASendPadding? && draws == k + 1
      && slot.value.machine == mi && slot.value.bypass == bypass && slot.value.replace == replace
      && ADayAtMost(tape.amount(timeout, k), slot.value.wait)
    case Some(BlockOutgoing(bypass, replace, timeout, duration, _)) =>
      && slot.Some? && slot.value.TABlockOutgoing? && draws == k + 2
      && slot.value.machine == mi && slot.value.bypass == bypass && slot.value.replace == replace
      && ADayAtMost(tape.amount(timeout, k), slot.value.wait)
      && ADayAtMost(tape.amount(duration, k + 1), slot.value.duration)
    case Some(UpdateTimer(replace, duration, _)) =>
      && slot.Some? && slot.value.TAUpdateTimer? && draws == k + 1
      && slot.value.machine == mi && slot.value.replace == replace
      && ADayAtMost(tape.amount(duration, k), slot.value.duration)
  }

  lemma ScheduleShows(c: Config, s: Core.Core, mi: nat, state: nat)
    requires HasMachine(c, s, mi) && state < |c.machines[mi].states|
    ensures var r := ScheduleAction(c, s, mi, state);
            && r == s.(draws := r.draws, actions := s.actions[mi := r.actions[mi]])
            && Shows(c.tape, s.draws, mi, c.machines[mi].states[state].action, r.actions[mi], r.draws)
  {
    hide ValidConfig, ADayAtMost, Micros;
    match c.machines[mi].states[state].action
    case None =>
    case Some(Cancel(_)) =>
    case Some(SendPadding(_, _, timeout, _)) =>
      MicrosADayAtMost(c.tape.amount(timeout, s.draws), MAX_SAMPLED_TIMEOUT);
    case Some(BlockOutgoing(_, _, timeout, duration, _)) =>
      MicrosADayAtMost(c.tape.amount(timeout, s.draws), MAX_SAMPLED_TIMEOUT);
      MicrosADayAtMost(c.tape.amount(duration, s.draws + 1), MAX_SAMPLED_BLOCK_DURATION);
    case Some(UpdateTimer(_, duration, _)) =>
      MicrosADayAtMost(c.tape.amount(duration, s.draws), MAX_SAMPLED_TIMER_DURATION);
  }

  // ---------- Limits of entered states ----------

  /** The limit of a state with action a, sampled with draw k if the action has a limit. */
  ghost predicate LimitSampled(tape: Tape, k: nat, a: Option<Action>, limit: nat, draws: nat) {
    match a
    case Some(SendPadding(_, _, _, Some(d))) => Nearest(tape.amount(d, k), limit) && draws == k + 1
    case Some(BlockOutgoing(_, _, _, _, Some(d))) => Nearest(tape.amount(d, k), limit) && draws == k + 1
    case Some(UpdateTimer(_, _, Some(d))) => Nearest(tape.amount(d, k), limit) && draws == k + 1
    case _ => limit == U64_MAX && draws == k
  }

  lemma LimitIsSampled(c: Config, s: Core.Core, st: State)
    ensures var (limit, r) := LimitOf(c, s, st);
            r == s.(draws := r.draws) && LimitSampled(c.tape, s.draws, st.action, limit, r.draws)
  {
    if st.action.Some? && Limit(st.action.value).Some? {
      RoundsToNearest(c.tape.amount(Limit(st.action.value).value, s.draws));
    }
  }

  /** From s machine mi sampled state `next` on event e, and entered it: x. */
  ghost predicate Entered(c: Config, s: Core.Core, mi: nat, e: Event, next: nat, x: Core.Core)
    requires mi < |c.machines| && mi < |s.runtime|
  {
    var rt := s.runtime[mi];
    && mi < |x.runtime| && next < |c.machines[mi].states|
    && x == s.(draws := x.draws, log := s.log + [Fired(mi, e)],
               runtime := s.runtime[mi := rt.(currentState := next, stateLimit := x.runtime[mi].stateLimit)])
    && if next == rt.currentState then x.draws == s.draws + 1 && x.runtime[mi].stateLimit == rt.stateLimit
       else LimitSampled(c.tape, s.draws + 1, c.machines[mi].states[next].action, x.runtime[mi].stateLimit, x.draws)
  }

  // ---------- Counters ----------

  /** Counter k moved from `was` to `value`; `other` is what the other counter held before, draw number n. */
  ghost predicate CounterMoved(tape: Tape, n: nat, k: Option<Counter>, other: nat, was: nat, value: nat) {
    match k
    case None => value == was
    case Some(Counter(operation, dist, copy)) =>
      var change :=
        if copy then other
        else if dist.None? then 1
        else if tape.amount(dist.value, n) < U64_MAX as real then tape.amount(dist.value, n).Floor
        else U64_MAX;
      match operation
      case Increment => value == if was + change <= U64_MAX then was + change else U64_MAX
      case Decrement => value == if change <= was then was - change else 0
      case Replace => value == change
  }

  /** A copied change and the default of one take no draw. */
  function DrawsOf(k: Option<Counter>): nat {
    if k.Some? && !k.value.copy && k.value.dist.Some? then 1 else 0
  }

  predicate FallsToZero(was: nat, value: nat) {
    was > 0 && value == 0
  }

  /** From x both counters of machine mi moved as its state says: z. A fall to zero is flagged. */
  ghost predicate CountersMoved(tape: Tape, st: State, x: Core.Core, mi: nat, z: Core.Core)
    requires mi < |x.runtime|
  {
    mi < |z.runtime| &&
    var rt, zt := x.runtime[mi], z.runtime[mi];
    var n := x.draws + DrawsOf(st.counterA);
    && z == x.(draws := n + DrawsOf(st.counterB),
               runtime := x.runtime[mi := rt.(counterA := zt.counterA, counterB := zt.counterB)],
               zeroedA := x.zeroedA || FallsToZero(rt.counterA, zt.counterA),
               zeroedB := x.zeroedB || FallsToZero(rt.counterB, zt.counterB))
    && CounterMoved(tape, x.draws, st.counterA, rt.counterB, rt.counterA, zt.counterA)
    && CounterMoved(tape, n, st.counterB, rt.counterA, rt.counterB, zt.counterB)
  }

  /** CounterZero follows if a counter fell to zero that had not done so in this call. */
  predicate Chains(x: Core.Core, z: Core.Core, mi: nat)
    requires mi < |x.runtime| && mi < |z.runtime|
  {
    || (!x.zeroedA && FallsToZero(x.runtime[mi].counterA, z.runtime[mi].counterA))
    || (!x.zeroedB && FallsToZero(x.runtime[mi].counterB, z.runtime[mi].counterB))
  }

  lemma CounterMoves(c: Config, x: Core.Core, k: Counter, other: nat, was: nat)
    ensures var (change, r) := Change(c, x, k, other);
            && r == x.(draws := x.draws + DrawsOf(Some(k)))
            && CounterMoved(c.tape, x.draws, Some(k), other, was, Core.Apply(k.operation, was, change))
  {
  }

  lemma NoCounterStays(tape: Tape, n: nat, other: nat, was: nat)
    ensures CounterMoved(tape, n, None, other, was, was)
  {
  }

  lemma CounterAMoves(c: Config, x: Core.Core, mi: nat, k: Option<Counter>)
    requires mi < |x.runtime|
    ensures var (y, zeroed) := UpdateA(c, x, mi, k);
            var was, value := x.runtime[mi].counterA, y.runtime[mi].counterA;
            && CounterMoved(c.tape, x.draws, k, x.runtime[mi].counterB, was, value)
            && y.draws == x.draws + DrawsOf(k)
            && y.zeroedA == (x.zeroedA || FallsToZero(was, value))
            && (zeroed <==> !x.zeroedA && FallsToZero(was, value))
  {
    hide CounterMoved, Change, Core.Apply;
    NoCounterStays(c.tape, x.draws, x.runtime[mi].counterB, x.runtime[mi].counterA);
    if k.Some? {
      CounterMoves(c, x, k.value, x.runtime[mi].counterB, x.runtime[mi].counterA);
    }
  }

  lemma CounterBMoves(c: Config, x: Core.Core, mi: nat, k: Option<Counter>, other: nat)
    requires mi < |x.runtime|
    ensures var (y, zeroed) := UpdateB(c, x, mi, k, other);
            var was, value := x.runtime[mi].counterB, y.runtime[mi].counterB;
            && CounterMoved(c.tape, x.draws, k, other, was, value)
            && y.draws == x.draws + DrawsOf(k)
            && y.zeroedB == (x.zeroedB || FallsToZero(was, value))
            && (zeroed <==> !x.zeroedB && FallsToZero(was, value))
  {
    hide CounterMoved, Change, Core.Apply;
    NoCounterStays(c.tape, x.draws, other, x.runtime[mi].counterB);
    if k.Some? {
      CounterMoves(c, x, k.value, other, x.runtime[mi].counterB);
    }
  }

  lemma BothCountersMove(c: Config, x: Core.Core, mi: nat)
    requires Running(c, x, mi)
    ensures var (z, zeroed) := UpdateBoth(c, x, mi);
            && CountersMoved(c.tape, c.machines[mi].states[x.runtime[mi].currentState], x, mi, z)
            && (zeroed <==> Chains(x, z, mi))
  {
    hide ValidConfig, CounterMoved, UpdateA, UpdateB, OnlyMoved, FallsToZero;
    var st := c.machines[mi].states[x.runtime[mi].currentState];
    CounterAMoves(c, x, mi, st.counterA);
    var y := UpdateA(c, x, mi, st.counterA).0;
    CounterBMoves(c, y, mi, st.counterB, x.runtime[mi].counterA);
  }

  // ---------- Sampling ----------

  /** What machine mi samples on event e. */
  function Target(c: Config, s: Core.Core, mi: nat, e: Event): (r: Option<nat>)
    requires Running(c, s, mi)
  {
    SampleState(c.machines[mi].states[s.runtime[mi].currentState], e, c.tape.unit(s.draws))
  }

  /** The machine was asked, and the draw was taken if there is anything to sample. */
  function Asked(c: Config, s: Core.Core, mi: nat, e: Event): Core.Core
    requires Running(c, s, mi)
  {
    var drawn := if e in c.machines[mi].states[s.runtime[mi].currentState].transitions then 1 else 0;
    s.(log := s.log + [Fired(mi, e)], draws := s.draws + drawn)
  }

  lemma Chooses(c: Config, s: Core.Core, mi: nat, e: Event)
    requires Running(c, s, mi)
    ensures var s0 := WithNote(s, Fired(mi, e));
            Running(c, s0, mi) && Choose(c, s0, mi, e) == (Target(c, s, mi, e), Asked(c, s, mi, e))
    ensures Running(c, Asked(c, s, mi, e), mi)
  {
    hide ValidConfig, OnlyMoved, PickFrom;
    NoteKeeps(c, s, mi, Fired(mi, e));
  }

  /** A machine that has ended is asked, and nothing else happens. */
  lemma EndedStays(c: Config, s: Core.Core, mi: nat, e: Event)
    requires HasMachine(c, s, mi) && s.runtime[mi].currentState == STATE_END
    ensures Transition(c, s, mi, e) == Moved(s.(log := s.log + [Fired(mi, e)]), false)
  {
    hide ValidConfig, MoveTo, OnlyMoved, Choose;
  }

  /** Where no state is entered: nothing sampled, the end, or a signal; the action slot stays. */
  lemma EntersNothing(c: Config, s: Core.Core, mi: nat, e: Event)
    requires Running(c, s, mi)
    ensures var r := Transition(c, s, mi, e);
            var asked := Asked(c, s, mi, e);
            && (Target(c, s, mi, e) == None ==> r == Moved(asked, false))
            && (Target(c, s, mi, e) == Some(STATE_END) ==>
                  r == Moved(asked.(runtime := s.runtime[mi := s.runtime[mi].(currentState := STATE_END)],
                                    log := s.log + [Fired(mi, e), Left(mi)]), true))
            && (Target(c, s, mi, e) == Some(STATE_SIGNAL) ==>
                  r == Moved(asked.(raised := s.raised + [mi],
                                    signalPending := if s.signalPending.None? then Some(AllExcept(mi))
                                                     else Some(All)), false))
  {
    hide ValidConfig, MoveTo, OnlyMoved, Choose, Target;
    Chooses(c, s, mi, e);
    assert s.log + [Fired(mi, e)] + [Left(mi)] == s.log + [Fired(mi, e), Left(mi)];
  }

  // ---------- A real state ----------

  /** The note that the machine left its state, if it did. */
  function LeftIf(left: bool, mi: nat): seq<Note> {
    if left then [Left(mi)] else []
  }

  /** A core with a new slot for machine mi, more draws and more notes. */
  ghost predicate Slotted(q: Core.Core, r: Core.Core, mi: nat, notes: seq<Note>)
    requires mi < |q.actions|
  {
    && mi < |r.actions|
    && r == q.(draws := r.draws, actions := q.actions[mi := r.actions[mi]], log := q.log + notes)
  }

  /** Scheduling at the end of a transition: the action is shown in the slot, or slot and draws stay. */
  ghost predicate Schedules(c: Config, shown: bool, q: Core.Core, mi: nat, a: Option<Action>, r: Core.Core)
    requires mi < |q.actions| && mi < |r.actions|
  {
    if shown then Shows(c.tape, q.draws, mi, a, r.actions[mi], r.draws)
    else r.actions[mi] == q.actions[mi] && r.draws == q.draws
  }

  /**
   The outcome r of a transition from s to the real state `next`, which was entered in x and whose
   counters moved in z. Without a fall to zero the machine is in `next` and its slot shows the
   action of `next` if the limits allowed it in x, and otherwise what it held before. After a fall
   to zero all is as the transition on CounterZero leaves it, but a slot that is empty then shows
   the action of `next` if the limits allowed it in x.
   */
  ghost predicate Outcome(c: Config, s: Core.Core, mi: nat, next: nat, x: Core.Core, z: Core.Core, r: Moved)
    requires Running(c, s, mi) && HasMachine(c, z, mi) && mi < |x.runtime| && next < |c.machines[mi].states|
    requires mi < |r.core.actions|
  {
    var action := c.machines[mi].states[next].action;
    var left := next != s.runtime[mi].currentState;
    var allowed := Allowed(c, x, mi, action);
    if !Chains(x, z, mi) then
      && r.changed == left
      && Slotted(z, r.core, mi, LeftIf(left, mi))
      && r.core.runtime[mi].currentState == next
      && Schedules(c, allowed, z, mi, action, r.core)
    else
      var q := Transition(c, z, mi, CounterZero);
      && r.changed == (left || q.changed)
      && Slotted(q.core, r.core, mi, LeftIf(r.changed, mi))
      && Schedules(c, allowed && q.core.actions[mi] == None, q.core, mi, action, r.core)
  }

  lemma RealIsNoPseudoState(c: Config, mi: nat, next: nat)
    requires ValidConfig(c) && mi < |c.machines| && next < |c.machines[mi].states|
    ensures next != STATE_END && next != STATE_SIGNAL
  {
    assert ValidMachine(c.machines[mi]);
    hide ValidState;
  }

  lemma SampledReal(c: Config, s: Core.Core, mi: nat, e: Event, next: nat)
    requires Running(c, s, mi) && Target(c, s, mi, e) == Some(next) && next < |c.machines[mi].states|
    ensures var s1 := s.(draws := s.draws + 1, log := s.log + [Fired(mi, e)]);
            && Running(c, s1, mi)
            && Transition(c, s, mi, e) == MoveTo(c, s1, mi, next)
  {
    hide ValidConfig, MoveTo, OnlyMoved, Choose, PickFrom;
    RealIsNoPseudoState(c, mi, next);
    Chooses(c, s, mi, e);
  }

  lemma EntersReal(c: Config, s: Core.Core, mi: nat, e: Event, next: nat)
    requires Running(c, s, mi) && next < |c.machines[mi].states|
    ensures var s1 := s.(draws := s.draws + 1, log := s.log + [Fired(mi, e)]);
            && Running(c, s1, mi)
            && Entered(c, s, mi, e, next, Enter(c, s1, mi, next))
  {
    hide ValidConfig, OnlyMoved, LimitOf, LimitSampled;
    NoteKeeps(c, s, mi, Fired(mi, e));
    var s1 := s.(draws := s.draws + 1, log := s.log + [Fired(mi, e)]);
    LimitIsSampled(c, s1, c.machines[mi].states[next]);
    if next == s.runtime[mi].currentState {
      var rt := s.runtime[mi];
      assert s.runtime[mi := rt.(currentState := next, stateLimit := rt.stateLimit)] == s.runtime;
    }
  }

  /** A transition that reports no change leaves the machine where it was. */
  lemma UnchangedStays(c: Config, s: Core.Core, mi: nat, e: Event)
    requires HasMachine(c, s, mi)
    ensures var q := Transition(c, s, mi, e);
            mi < |q.core.runtime| && (!q.changed ==> q.core.runtime[mi].currentState == s.runtime[mi].currentState)
  {
    hide ValidConfig, Transition, Limits.Exhausted;
    Limits.TransitionRecorded(c, s, mi, e);
  }

  lemma MovesTo(c: Config, s: Core.Core, mi: nat, next: nat)
    requires Running(c, s, mi) && next < |c.machines[mi].states|
    ensures var x := Enter(c, s, mi, next);
            var z := UpdateBoth(c, x, mi).0;
            && HasMachine(c, z, mi) && Outcome(c, s, mi, next, x, z, MoveTo(c, s, mi, next))
  {
    hide ValidConfig, OnlyMoved, BelowActionLimits, UpdateBoth, Enter, ScheduleAction, Transition, Shows, Allowed,
         FallsToZero;
    var x := Enter(c, s, mi, next);
    AllowedExactly(c, x, mi);
    BothCountersMove(c, x, mi);
    var (z, zeroed) := UpdateBoth(c, x, mi);
    var k := UpdateCounter(c, x, mi);
    ScheduleShows(c, k.core, mi, next);
    if zeroed {
      UnchangedStays(c, z, mi, CounterZero);
    }
  }

  /** A transition that samples a real state enters it, moves its counters and has that outcome. */
  lemma EntersState(c: Config, s: Core.Core, mi: nat, e: Event, next: nat)
    requires Running(c, s, mi) && Target(c, s, mi, e) == Some(next) && next < |c.machines[mi].states|
    ensures exists x, z ::
              && Entered(c, s, mi, e, next, x) && Running(c, x, mi)
              && CountersMoved(c.tape, c.machines[mi].states[next], x, mi, z) && HasMachine(c, z, mi)
              && Outcome(c, s, mi, next, x, z, Transition(c, s, mi, e))
  {
    hide ValidConfig, OnlyMoved, UpdateBoth, Enter, Transition, MoveTo, Entered, CountersMoved, Chains, Schedules,
         Allowed, Slotted;
    SampledReal(c, s, mi, e, next);
    EntersReal(c, s, mi, e, next);
    var s1 := s.(draws := s.draws + 1, log := s.log + [Fired(mi, e)]);
    var x := Enter(c, s1, mi, next);
    BothCountersMove(c, x, mi);
    MovesTo(c, s1, mi, next);
    var z := UpdateBoth(c, x, mi).0;
    assert CountersMoved(c.tape, c.machines[mi].states[next], x, mi, z) && HasMachine(c, z, mi);
    assert Outcome(c, s, mi, next, x, z, Transition(c, s, mi, e));
  }
}
