/**
 The framework as the source writes it: one object whose methods update its fields in
 place. Every method is proved to have exactly the effect that FrameworkSpec gives it.
 */
module FrameworkRuntime {
  import opened Prelude
  import opened Machines
  import opened Core = FrameworkSpec
  import States

  datatype FrameworkError = PaddingLimit | BlockingLimit | BadMachine(reason: States.Invalid)

  /** The arguments of `Framework::new`, checked in its order. */
  method ValidateConfig(c: Config) returns (r: Result<(), FrameworkError>)
    ensures r.Ok? <==> ValidConfig(c)
    ensures r == Err(PaddingLimit) <==> !(0.0 <= c.maxPaddingFrac <= 1.0)
    ensures r == Err(BlockingLimit) <==> 0.0 <= c.maxPaddingFrac <= 1.0 && !(0.0 <= c.maxBlockingFrac <= 1.0)
  {
    if !(0.0 <= c.maxPaddingFrac <= 1.0) {
      return Err(PaddingLimit);
    }
    if !(0.0 <= c.maxBlockingFrac <= 1.0) {
      return Err(BlockingLimit);
    }
    for i := 0 to |c.machines|
      invariant forall k :: 0 <= k < i ==> ValidMachine(c.machines[k])
    {
      var one := States.ValidateMachine(c.machines[i]);
      if one.Err? {
        return Err(BadMachine(one.error));
      }
    }
    return Ok(());
  }

  lemma MachinesAreValid(c: Config)
    requires ValidConfig(c)
    ensures forall i :: 0 <= i < |c.machines| ==> ValidMachine(c.machines[i]) && |c.machines[i].states| > 0
  {
  }

  class Framework {
    const config: Config
    var now: int
    var draws: nat
    var actions: seq<Option<TriggerAction>>
    var runtime: seq<Runtime>
    var normalSent: nat
    var paddingSent: nat
    var blockingDuration: nat
    var blockingStarted: int
    var blockingActive: bool
    var signalPending: Option<SignalTarget>
    var zeroedA: bool
    var zeroedB: bool
    ghost var raised: seq<nat>
    ghost var log: seq<Note>

    ghost function Value(): Core.Core
      reads this
    {
      Core.Core(now, draws, actions, runtime, normalSent, paddingSent, blockingDuration,
                blockingStarted, blockingActive, signalPending, zeroedA, zeroedB, raised, log)
    }

    ghost predicate Valid()
      reads this
    {
      WellFormed(config, Value())
    }

    /** The part of `Framework::new` after validation. */
    constructor (c: Config)
      requires ValidConfig(c)
      ensures Valid() && config == c
      ensures Value() == Start(c)
    {
      config := c;
      now, draws := c.start, 0;
      actions := NoActions(c);
      runtime := seq(|c.machines|, i requires 0 <= i < |c.machines| => StartRuntime(c, i));
      normalSent, paddingSent := 0, 0;
      blockingDuration, blockingStarted, blockingActive := 0, c.start, false;
      signalPending, zeroedA, zeroedB := None, false, false;
      raised, log := [], [];
      new;
      StartAll();
    }

    /** Sample the limits of the start states. */
    method StartAll()
      requires Valid()
      modifies this`draws, this`runtime
      ensures Valid() && Value() == StartLimits(config, old(Value()), 0)
    {
      hide ValidConfig, ValidMachine, SampleLimit;
      MachinesAreValid(config);
      for mi := 0 to |runtime|
        invariant Valid() && StartLimits(config, Value(), mi) == StartLimits(config, old(Value()), 0)
      {
        var action := config.machines[mi].states[0].action;
        if action.Some? {
          var limit := SampleLimitOf(action.value);
          runtime := runtime[mi := runtime[mi].(stateLimit := limit)];
        }
      }
    }

    method Sample(d: Dist) returns (x: NonNegative)
      modifies this`draws
      ensures (x, Value()) == Draw(config, old(Value()), d)
    {
      x := config.tape.amount(d, draws);
      draws := draws + 1;
    }

    method SampleLimitOf(a: Action) returns (limit: nat)
      modifies this`draws
      ensures (limit, Value()) == SampleLimit(config, old(Value()), a)
    {
      match Limit(a)
      case None => limit := STATE_LIMIT_MAX;
      case Some(d) =>
        var x := Sample(d);
        limit := RoundToU64(x);
    }

    method Trigger(events: seq<TriggerEvent>, time: int) returns (returned: seq<TriggerAction>)
      requires Valid()
      modifies this
      ensures Valid()
      ensures Value() == TriggerEvents(config, old(Value()), events, time)
      ensures returned == Present(actions) && OnePerMachine(returned, |config.machines|)
    {
      hide ProcessEvent, Deliver;
      actions := NoActions(config);
      zeroedA, zeroedB := false, false;
      now := time;
      log := [];
      assert Value() == Begin(config, old(Value()), time);
      ghost var start := Value();
      for i := 0 to |events|
        invariant Valid()
        invariant ProcessEvents(config, start, events) == ProcessEvents(config, Value(), events[i..])
      {
        Process(events[i]);
        assert events[i..][1..] == events[i + 1..];
      }
      DeliverSignal();
      returned := Present(actions);
      PresentOnePerMachine(actions, 0);
    }

    method DeliverSignal()
      requires Valid()
      modifies this
      ensures Valid() && Value() == Deliver(config, old(Value()))
    {
      hide ValidConfig, Transition;
      if signalPending.None? {
        return;
      }
      var excluded := Excluded(signalPending.value);
      signalPending, raised := None, [];
      ghost var taken := Value();
      for mi := 0 to |runtime|
        invariant Valid()
        invariant SignalFrom(config, taken, 0, excluded) == SignalFrom(config, Value(), mi, excluded)
      {
        if excluded != Some(mi) {
          var _ := Step(mi, Signal);
        }
      }
      if signalPending.Some? {
        signalPending, raised := None, [];
        if excluded.Some? {
          var _ := Step(excluded.value, Signal);
        }
      }
    }

    method Process(e: TriggerEvent)
      requires Valid()
      modifies this
      ensures Valid() && Value() == ProcessEvent(config, old(Value()), e)
    {
      hide ValidConfig, Visit, VisitFrom;
      match e
      case TENormalSent =>
        ghost var blocked := Unblocked(Value());
        normalSent := normalSent + 1;
        VisitAll(e, 0, blocked);
      case TEPaddingSent(mi) =>
        paddingSent := paddingSent + 1;
        if mi < |runtime| {
          VisitOne(mi, e, 0, 0);
        }
      case TEBlockingBegin(_) =>
        ghost var blocked := Unblocked(Value());
        // keep track of when blocking started; nested blocking does not count
        if !blockingActive {
          blockingActive := true;
          blockingStarted := now;
        }
        VisitAll(e, 0, blocked);
      case TEBlockingEnd =>
        var blocked := 0;
        if blockingActive {
          blocked := Since(now, blockingStarted);
          blockingDuration := blockingDuration + blocked;
          blockingActive := false;
        }
        VisitAll(e, blocked, blocked);
      case TETimerBegin(mi) =>
        if mi < |runtime| {
          VisitOne(mi, e, 0, 0);
        }
      case TETimerEnd(mi) =>
        if mi < |runtime| {
          VisitOne(mi, e, 0, 0);
        }
      case _ =>
        ghost var blocked := Unblocked(Value());
        VisitAll(e, 0, blocked);
    }

    /** The loop over all machines; `passed` is what the specification passes along unused. */
    method VisitAll(e: TriggerEvent, blocked: nat, ghost passed: nat)
      requires Valid() && (e.TEBlockingEnd? ==> blocked == passed)
      modifies this
      ensures Valid() && Value() == VisitFrom(config, old(Value()), 0, e, passed)
    {
      hide ValidConfig, Visit;
      for mi := 0 to |runtime|
        invariant Valid()
        invariant VisitFrom(config, old(Value()), 0, e, passed) == VisitFrom(config, Value(), mi, e, passed)
      {
        VisitOne(mi, e, blocked, passed);
      }
    }

    /** The body of the loops over the machines. */
    method VisitOne(mi: nat, e: TriggerEvent, blocked: nat, ghost passed: nat)
      requires Valid() && mi < |runtime| && (e.TEBlockingEnd? ==> blocked == passed)
      modifies this
      ensures Valid() && Value() == Visit(config, old(Value()), mi, e, passed)
    {
      hide ValidConfig, Transition, TransitionAndCount;
      assert runtime[mi := runtime[mi]] == runtime;
      match e
      case TENormalRecv => var _ := Step(mi, NormalRecv);
      case TEPaddingRecv => var _ := Step(mi, PaddingRecv);
      case TETunnelRecv => var _ := Step(mi, TunnelRecv);
      case TETunnelSent => var _ := Step(mi, TunnelSent);
      case TENormalSent =>
        runtime := runtime[mi := runtime[mi].(normalSent := runtime[mi].normalSent + 1)];
        var _ := Step(mi, NormalSent);
      case TEPaddingSent(_) =>
        runtime := runtime[mi := runtime[mi].(paddingSent := runtime[mi].paddingSent + 1)];
        StepAndCount(mi, PaddingSent);
      case TEBlockingBegin(who) =>
        if mi == who {
          StepAndCount(mi, BlockingBegin);
        } else {
          var _ := Step(mi, BlockingBegin);
        }
      case TEBlockingEnd =>
        if blocked != 0 {
          runtime := runtime[mi := runtime[mi].(blockingDuration := runtime[mi].blockingDuration + blocked)];
        }
        var _ := Step(mi, BlockingEnd);
      case TETimerBegin(_) => StepAndCount(mi, TimerBegin);
      case TETimerEnd(_) => var _ := Step(mi, TimerEnd);
    }

    /** A transition; without a change of state it uses up one unit of the limit. */
    method StepAndCount(mi: nat, event: Event)
      requires Valid() && mi < |runtime|
      modifies this
      ensures Valid() && Value() == TransitionAndCount(config, old(Value()), mi, event)
    {
      hide ValidConfig, Transition, DecrementLimit;
      var changed := Step(mi, event);
      if !changed && runtime[mi].currentState != STATE_END {
        Decrement(mi);
      }
    }

    /** `transition`: true if the state changed. */
    method Step(mi: nat, event: Event) returns (changed: bool)
      requires Valid() && mi < |runtime|
      modifies this
      ensures Moved(Value(), changed) == Transition(config, old(Value()), mi, event)
      decreases Unzeroed(Value()), 3
    {
      hide ValidConfig, MoveTo, UpdateCounter, Choose, WithRuntime, Raise, OnlyMoved;
      log := log + [Fired(mi, event)];
      if runtime[mi].currentState == STATE_END {
        return false;
      }
      var next := NextState(mi, event);
      if next.None? {
        return false;
      }
      changed := Follow(mi, next.value);
    }

    /** Act on the sampled state: the end, a signal, or a real state. */
    method Follow(mi: nat, next: nat) returns (changed: bool)
      requires Running(config, Value(), mi) && RealTarget(next, |config.machines[mi].states|)
      modifies this
      ensures Moved(Value(), changed) ==
                var s := old(Value());
                if next == STATE_END then
                  Moved(WithNote(WithRuntime(s, mi, s.runtime[mi].(currentState := STATE_END)), Left(mi)), true)
                else if next == STATE_SIGNAL then
                  Moved(s.(signalPending := Raise(s.signalPending, mi), raised := s.raised + [mi]), false)
                else MoveTo(config, s, mi, next)
      decreases Unzeroed(Value()), 2
    {
      hide ValidConfig, MoveTo, UpdateCounter, WithRuntime, Raise, OnlyMoved;
      if next == STATE_END {
        EndMachine(mi);
        return true;
      }
      if next == STATE_SIGNAL {
        RaiseSignal(mi);
        return false;
      }
      changed := StepTo(mi, next);
    }

    method EndMachine(mi: nat)
      requires mi < |runtime|
      modifies this`runtime, this`log
      ensures Value() == WithNote(WithRuntime(old(Value()), mi, old(runtime[mi]).(currentState := STATE_END)), Left(mi))
    {
      runtime := runtime[mi := runtime[mi].(currentState := STATE_END)];
      log := log + [Left(mi)];
    }

    /** The first signal excludes the machine that raises it; any other is for all machines. */
    method RaiseSignal(mi: nat)
      modifies this`signalPending, this`raised
      ensures Value() == old(Value()).(signalPending := Raise(old(signalPending), mi), raised := old(raised) + [mi])
    {
      signalPending := if signalPending.None? then Some(AllExcept(mi)) else Some(All);
      raised := raised + [mi];
    }

    /** Sample the next state; without transitions for the event nothing is drawn. */
    method NextState(mi: nat, event: Event) returns (next: Option<nat>)
      requires Running(config, Value(), mi)
      modifies this`draws
      ensures (next, Value()) == Choose(config, old(Value()), mi, event)
    {
      var state := config.machines[mi].states[runtime[mi].currentState];
      next := States.Sample(state, event, config.tape.unit(draws));
      if event in state.transitions {
        draws := draws + 1;
      }
    }

    /** The branch of `transition` that reaches a real state. */
    method StepTo(mi: nat, next: nat) returns (changed: bool)
      requires Running(config, Value(), mi) && next < |config.machines[mi].states|
      modifies this
      ensures Valid()
      ensures Moved(Value(), changed) == MoveTo(config, old(Value()), mi, next)
      decreases Unzeroed(Value()), 1
    {
      hide ValidConfig, Enter, Transition, UpdateCounter, ScheduleAction, BelowActionLimits;
      var current := runtime[mi].currentState;
      EnterState(mi, next);
      var below := BelowLimits(mi);
      var allow, chained := Count(mi);
      if allow && below {
        Schedule(mi, next);
      }
      if current == runtime[mi].currentState && !chained {
        return false;
      }
      log := log + [Left(mi)];
      return true;
    }

    /** Entering another state samples its limit. */
    method EnterState(mi: nat, next: nat)
      requires Running(config, Value(), mi) && next < |config.machines[mi].states|
      modifies this`draws, this`runtime
      ensures Valid() && Value() == Enter(config, old(Value()), mi, next)
    {
      if runtime[mi].currentState != next {
        runtime := runtime[mi := runtime[mi].(currentState := next)];
        var action := config.machines[mi].states[next].action;
        var limit := STATE_LIMIT_MAX;
        if action.Some? {
          limit := SampleLimitOf(action.value);
        }
        runtime := runtime[mi := runtime[mi].(stateLimit := limit)];
      }
    }

    /** `update_counter`: whether to schedule, and whether CounterZero changed the state. */
    method Count(mi: nat) returns (allow: bool, changed: bool)
      requires Running(config, Value(), mi)
      modifies this
      ensures Valid()
      ensures Counted(Value(), allow, changed) == UpdateCounter(config, old(Value()), mi)
      decreases Unzeroed(Value()), 0
    {
      hide ValidConfig, Transition, MoveTo, UpdateA, UpdateB;
      var state := config.machines[mi].states[runtime[mi].currentState];
      var oldA := runtime[mi].counterA;
      var zeroA := CountA(mi, state.counterA);
      var zeroB := CountB(mi, state.counterB, oldA);
      if zeroA || zeroB {
        changed := Step(mi, CounterZero);
        allow := actions[mi].None?;
        return;
      }
      return true, false;
    }

    method CountA(mi: nat, counter: Option<Counter>) returns (zeroed: bool)
      requires Running(config, Value(), mi)
      modifies this`draws, this`runtime, this`zeroedA
      ensures (Value(), zeroed) == UpdateA(config, old(Value()), mi, counter)
    {
      zeroed := false;
      if counter.Some? {
        var before := runtime[mi].counterA;
        var change := ChangeOf(counter.value, runtime[mi].counterB);
        var value := Apply(counter.value.operation, before, change);
        runtime := runtime[mi := runtime[mi].(counterA := value)];
        if before != 0 && value == 0 && !zeroedA {
          zeroed := true;
          zeroedA := true;
        }
      }
    }

    method CountB(mi: nat, counter: Option<Counter>, oldA: nat) returns (zeroed: bool)
      requires Running(config, Value(), mi)
      modifies this`draws, this`runtime, this`zeroedB
      ensures (Value(), zeroed) == UpdateB(config, old(Value()), mi, counter, oldA)
    {
      zeroed := false;
      if counter.Some? {
        var before := runtime[mi].counterB;
        var change := ChangeOf(counter.value, oldA);
        var value := Apply(counter.value.operation, before, change);
        runtime := runtime[mi := runtime[mi].(counterB := value)];
        if before != 0 && value == 0 && !zeroedB {
          zeroed := true;
          zeroedB := true;
        }
      }
    }

    method ChangeOf(k: Counter, other: nat) returns (change: nat)
      modifies this`draws
      ensures (change, Value()) == Change(config, old(Value()), k, other)
    {
      if k.copy {
        change := other;
      } else if k.dist.None? {
        change := 1;
      } else {
        var x := Sample(k.dist.value);
        change := Min(x.Floor, U64_MAX);
      }
    }

    method Schedule(mi: nat, state: nat)
      requires Valid() && mi < |runtime| && state < |config.machines[mi].states|
      modifies this`draws, this`actions
      ensures Valid() && Value() == ScheduleAction(config, old(Value()), mi, state)
    {
      var scheduled := None;
      match config.machines[mi].states[state].action {
        case None =>
        case Some(Cancel(timer)) =>
          scheduled := Some(TACancel(mi, timer));
        case Some(SendPadding(bypass, replace, timeout, _)) =>
          var x := Sample(timeout);
          scheduled := Some(TASendPadding(mi, Micros(x, MAX_SAMPLED_TIMEOUT), bypass, replace));
        case Some(BlockOutgoing(bypass, replace, timeout, duration, _)) =>
          var x := Sample(timeout);
          var y := Sample(duration);
          scheduled := Some(TABlockOutgoing(mi, Micros(x, MAX_SAMPLED_TIMEOUT),
                                            Micros(y, MAX_SAMPLED_BLOCK_DURATION), bypass, replace));
        case Some(UpdateTimer(replace, duration, _)) =>
          var x := Sample(duration);
          scheduled := Some(TAUpdateTimer(mi, Micros(x, MAX_SAMPLED_TIMER_DURATION), replace));
      }
      actions := actions[mi := scheduled];
    }

    method Decrement(mi: nat)
      requires Running(config, Value(), mi)
      modifies this
      ensures Valid() && Value() == DecrementLimit(config, old(Value()), mi)
    {
      var rt := runtime[mi];
      runtime := runtime[mi := rt.(stateLimit := if rt.stateLimit > 0 then rt.stateLimit - 1 else 0)];
      var action := config.machines[mi].states[runtime[mi].currentState].action;
      if action.Some? && runtime[mi].stateLimit == 0 && HasLimit(action.value) {
        actions := actions[mi := None];
        var _ := Step(mi, LimitReached);
      }
    }

    method BelowLimits(mi: nat) returns (below: bool)
      requires Running(config, Value(), mi)
      ensures below == BelowActionLimits(config, Value(), mi)
    {
      var action := config.machines[mi].states[runtime[mi].currentState].action;
      match action
      case None => return false;
      case Some(BlockOutgoing(_, replace, _, _, _)) => below := BelowBlocking(mi, replace);
      case Some(SendPadding(_, _, _, _)) => below := BelowPadding(mi);
      case Some(UpdateTimer(_, _, _)) => return runtime[mi].stateLimit > 0;
      case Some(Cancel(_)) => return true;
    }

    method BelowBlocking(mi: nat, replace: bool) returns (below: bool)
      requires Running(config, Value(), mi)
      ensures below == BelowLimitBlocking(config, Value(), mi, replace)
    {
      var rt := runtime[mi];
      if replace && blockingActive {
        return rt.stateLimit > 0;
      }
      var machineBlocked := rt.blockingDuration;
      var globalBlocked := blockingDuration;
      if blockingActive {
        machineBlocked := machineBlocked + Since(now, blockingStarted);
        globalBlocked := globalBlocked + Since(now, blockingStarted);
      }
      if machineBlocked < rt.allowedBlocked {
        return rt.stateLimit > 0;
      }
      var frac := config.machines[mi].maxBlockingFrac;
      if frac > 0.0 && FracReached(machineBlocked, Since(now, rt.machineStart), frac) {
        return false;
      }
      if config.maxBlockingFrac > 0.0
         && FracReached(globalBlocked, Since(now, config.start), config.maxBlockingFrac) {
        return false;
      }
      return rt.stateLimit > 0;
    }

    method BelowPadding(mi: nat) returns (below: bool)
      requires Running(config, Value(), mi)
      ensures below == BelowLimitPadding(config, Value(), mi)
    {
      var rt := runtime[mi];
      if rt.paddingSent < config.machines[mi].allowedPaddingPackets {
        return rt.stateLimit > 0;
      }
      var frac := config.machines[mi].maxPaddingFrac;
      if frac > 0.0 {
        var total := rt.normalSent + rt.paddingSent;
        if total == 0 {
          return true;
        }
        if FracReached(rt.paddingSent, total, frac) {
          return false;
        }
      }
      if config.maxPaddingFrac > 0.0 {
        var total := paddingSent + normalSent;
        if total == 0 {
          return true;
        }
        if FracReached(paddingSent, total, config.maxPaddingFrac) {
          return false;
        }
      }
      return rt.stateLimit > 0;
    }
  }
}
