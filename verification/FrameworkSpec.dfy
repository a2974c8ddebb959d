/**
 The framework runtime as functions on values: what each call does to the runtime state.
 Class Framework updates the same state in place and is proved equal to these functions.
 */
module FrameworkSpec {
  import opened Prelude
  import opened Machines
  import opened States

  datatype Runtime = Runtime(currentState: nat, stateLimit: nat, paddingSent: nat, normalSent: nat,
                             blockingDuration: nat, machineStart: int, allowedBlocked: nat,
                             counterA: nat, counterB: nat)

  datatype SignalTarget = All | AllExcept(machine: nat)

  /** History of a call: a machine was asked to transition; a transition reported a change. */
  datatype Note = Fired(machine: nat, event: Event) | Left(machine: nat)

  datatype Config = Config(machines: seq<Machine>, maxPaddingFrac: real, maxBlockingFrac: real,
                           start: int, tape: Tape)

  /**
   The runtime state. `draws` counts the samples taken so far. Two fields are history that
   no decision reads: `raised` lists the machines that signalled since the pending signal
   was last taken, `log` the notes of the current call.
   */
  datatype Core = Core(now: int, draws: nat, actions: seq<Option<TriggerAction>>, runtime: seq<Runtime>,
                       normalSent: nat, paddingSent: nat,
                       blockingDuration: nat, blockingStarted: int, blockingActive: bool,
                       signalPending: Option<SignalTarget>, zeroedA: bool, zeroedB: bool,
                       raised: seq<nat>, log: seq<Note>)

  datatype Moved = Moved(core: Core, changed: bool)

  datatype Counted = Counted(core: Core, allow: bool, changed: bool)

  // ---------- Well-formed states ----------

  ghost predicate ValidConfig(c: Config) {
    && 0.0 <= c.maxPaddingFrac <= 1.0
    && 0.0 <= c.maxBlockingFrac <= 1.0
    && forall i :: 0 <= i < |c.machines| ==> ValidMachine(c.machines[i])
  }

  /** The machine is in the end state or in one of its own states. */
  predicate InState(m: Machine, currentState: nat) {
    currentState == STATE_END || currentState < |m.states|
  }

  /** Slot i speaks of machine i. */
  predicate Names(a: Option<TriggerAction>, i: nat) {
    a.Some? ==> a.value.machine == i
  }

  /** No signal since the last take, one (its machine is excluded), or several. */
  function TargetOf(raised: seq<nat>): Option<SignalTarget> {
    if |raised| == 0 then None
    else if |raised| == 1 then Some(AllExcept(raised[0]))
    else Some(All)
  }

  ghost predicate WellFormed(c: Config, s: Core) {
    && ValidConfig(c)
    && |s.runtime| == |s.actions| == |c.machines|
    && (forall i :: 0 <= i < |c.machines| ==> InState(c.machines[i], s.runtime[i].currentState))
    && (forall i :: 0 <= i < |c.machines| ==> Names(s.actions[i], i))
    && (forall k :: 0 <= k < |s.raised| ==> s.raised[k] < |c.machines|)
    && s.signalPending == TargetOf(s.raised)
  }

  ghost predicate HasMachine(c: Config, s: Core, mi: nat) {
    WellFormed(c, s) && mi < |c.machines|
  }

  ghost predicate Running(c: Config, s: Core, mi: nat) {
    HasMachine(c, s, mi) && s.runtime[mi].currentState != STATE_END
  }

  /** The accounting fields of a machine, which only the events of the integrator change. */
  predicate SameBooks(a: Runtime, b: Runtime) {
    && a.paddingSent == b.paddingSent && a.normalSent == b.normalSent
    && a.blockingDuration == b.blockingDuration && a.machineStart == b.machineStart
    && a.allowedBlocked == b.allowedBlocked
  }

  predicate SameGlobalBooks(s: Core, r: Core) {
    && r.now == s.now && r.normalSent == s.normalSent && r.paddingSent == s.paddingSent
    && r.blockingDuration == s.blockingDuration && r.blockingStarted == s.blockingStarted
    && r.blockingActive == s.blockingActive
  }

  /** From s to r only machine mi moved, and no accounting changed. */
  ghost predicate OnlyMoved(s: Core, r: Core, mi: nat) {
    && |r.runtime| == |s.runtime| && |r.actions| == |s.actions| && mi < |s.runtime|
    && SameGlobalBooks(s, r)
    && SameBooks(s.runtime[mi], r.runtime[mi])
    && (forall j :: 0 <= j < |s.runtime| && j != mi ==> r.runtime[j] == s.runtime[j])
    && (forall j :: 0 <= j < |s.actions| && j != mi ==> r.actions[j] == s.actions[j])
  }

  /** The counters that may still trigger CounterZero in this call. */
  function Unzeroed(s: Core): nat {
    (if s.zeroedA then 0 else 1) + (if s.zeroedB then 0 else 1)
  }

  // ---------- Small updates ----------

  function Current(c: Config, s: Core, mi: nat): State
    requires Running(c, s, mi)
  {
    c.machines[mi].states[s.runtime[mi].currentState]
  }

  function WithRuntime(s: Core, mi: nat, r: Runtime): Core
    requires mi < |s.runtime|
  {
    s.(runtime := s.runtime[mi := r])
  }

  function WithAction(s: Core, mi: nat, a: Option<TriggerAction>): Core
    requires mi < |s.actions|
  {
    s.(actions := s.actions[mi := a])
  }

  function WithNote(s: Core, n: Note): Core {
    s.(log := s.log + [n])
  }

  /** Draw an amount from a distribution; an absent distribution draws nothing. */
  function Draw(c: Config, s: Core, d: Dist): (NonNegative, Core) {
    (c.tape.amount(d, s.draws), s.(draws := s.draws + 1))
  }

  function SampleLimit(c: Config, s: Core, a: Action): (r: (nat, Core))
    ensures r.1 == s.(draws := r.1.draws)
  {
    match Limit(a)
    case None => (STATE_LIMIT_MAX, s)
    case Some(d) => var (x, s') := Draw(c, s, d); (RoundToU64(x), s')
  }

  function LimitOf(c: Config, s: Core, st: State): (nat, Core) {
    match st.action
    case None => (STATE_LIMIT_MAX, s)
    case Some(a) => SampleLimit(c, s, a)
  }

  // ---------- Limits ----------

  /** num / den >= frac as floating point decides it: 0/0 compares false, x/0 true. */
  predicate FracReached(num: nat, den: nat, frac: real) {
    if den == 0 then num > 0 else num as real >= frac * den as real
  }

  predicate BelowActionLimits(c: Config, s: Core, mi: nat)
    requires Running(c, s, mi)
  {
    match Current(c, s, mi).action
    case None => false
    case Some(Cancel(_)) => true
    case Some(SendPadding(_, _, _, _)) => BelowLimitPadding(c, s, mi)
    case Some(BlockOutgoing(_, replace, _, _, _)) => BelowLimitBlocking(c, s, mi, replace)
    case Some(UpdateTimer(_, _, _)) => s.runtime[mi].stateLimit > 0
  }

  predicate BelowLimitBlocking(c: Config, s: Core, mi: nat, replace: bool)
    requires Running(c, s, mi)
  {
    var rt := s.runtime[mi];
    var ongoing := if s.blockingActive then Since(s.now, s.blockingStarted) else 0;
    var machineBlocked := rt.blockingDuration + ongoing;
    if replace && s.blockingActive then
      rt.stateLimit > 0
    else if machineBlocked < rt.allowedBlocked then
      rt.stateLimit > 0
    else if c.machines[mi].maxBlockingFrac > 0.0
            && FracReached(machineBlocked, Since(s.now, rt.machineStart), c.machines[mi].maxBlockingFrac) then
      false
    else if c.maxBlockingFrac > 0.0
            && FracReached(s.blockingDuration + ongoing, Since(s.now, c.start), c.maxBlockingFrac) then
      false
    else
      rt.stateLimit > 0
  }

  predicate BelowLimitPadding(c: Config, s: Core, mi: nat)
    requires Running(c, s, mi)
  {
    var rt := s.runtime[mi];
    var m := c.machines[mi];
    var total := rt.normalSent + rt.paddingSent;
    var allTotal := s.paddingSent + s.normalSent;
    if rt.paddingSent < m.allowedPaddingPackets then
      rt.stateLimit > 0
    else if m.maxPaddingFrac > 0.0 && total == 0 then
      true
    else if m.maxPaddingFrac > 0.0 && FracReached(rt.paddingSent, total, m.maxPaddingFrac) then
      false
    else if c.maxPaddingFrac > 0.0 && allTotal == 0 then
      true
    else if c.maxPaddingFrac > 0.0 && FracReached(s.paddingSent, allTotal, c.maxPaddingFrac) then
      false
    else
      rt.stateLimit > 0
  }

  // ---------- Scheduling ----------

  function Micros(x: NonNegative, cap: NonNegative): nat {
    1000 * RoundToU64(Capped(x, cap))
  }

  /** What a state's action asks of the integrator, and the number of draws after sampling it. */
  function ActionFor(tape: Tape, draws: nat, mi: nat, a: Option<Action>): (r: (Option<TriggerAction>, nat))
    ensures Names(r.0, mi)
  {
    match a
    case None => (None, draws)
    case Some(Cancel(timer)) => (Some(TACancel(mi, timer)), draws)
    case Some(SendPadding(bypass, replace, timeout, _)) =>
      var wait := Micros(tape.amount(timeout, draws), MAX_SAMPLED_TIMEOUT);
      (Some(TASendPadding(mi, wait, bypass, replace)), draws + 1)
    case Some(BlockOutgoing(bypass, replace, timeout, duration, _)) =>
      var wait := Micros(tape.amount(timeout, draws), MAX_SAMPLED_TIMEOUT);
      var length := Micros(tape.amount(duration, draws + 1), MAX_SAMPLED_BLOCK_DURATION);
      (Some(TABlockOutgoing(mi, wait, length, bypass, replace)), draws + 2)
    case Some(UpdateTimer(replace, duration, _)) =>
      var length := Micros(tape.amount(duration, draws), MAX_SAMPLED_TIMER_DURATION);
      (Some(TAUpdateTimer(mi, length, replace)), draws + 1)
  }

  function ScheduleAction(c: Config, s: Core, mi: nat, state: nat): (r: Core)
    requires HasMachine(c, s, mi) && state < |c.machines[mi].states|
    ensures HasMachine(c, r, mi) && OnlyMoved(s, r, mi)
    ensures r == s.(draws := r.draws, actions := s.actions[mi := r.actions[mi]])
  {
    var (action, draws) := ActionFor(c.tape, s.draws, mi, c.machines[mi].states[state].action);
    WithAction(s, mi, action).(draws := draws)
  }

  // ---------- Counters ----------

  /** Counters are u64: they saturate at both ends. */
  function Apply(op: Operation, value: nat, change: nat): nat {
    match op
    case Increment => Min(value + change, U64_MAX)
    case Decrement => if change <= value then value - change else 0
    case Replace => change
  }

  function Change(c: Config, s: Core, k: Counter, other: nat): (nat, Core) {
    if k.copy then (other, s)
    else if k.dist.None? then (1, s)
    else var (x, s') := Draw(c, s, k.dist.value); (Min(x.Floor, U64_MAX), s')
  }

  /** Counter A, then counter B, which copies the value A had before; true if one reached zero anew. */
  function UpdateA(c: Config, s: Core, mi: nat, k: Option<Counter>): (r: (Core, bool))
    requires mi < |s.runtime|
    ensures |r.0.runtime| == |s.runtime|
    ensures r.0 == s.(draws := r.0.draws, zeroedA := r.0.zeroedA, runtime := s.runtime[mi := r.0.runtime[mi]])
    ensures r.0.runtime[mi] == s.runtime[mi].(counterA := r.0.runtime[mi].counterA)
    ensures if r.1 then Unzeroed(r.0) < Unzeroed(s) else Unzeroed(r.0) == Unzeroed(s)
  {
    if k.None? then (s, false)
    else
      var rt := s.runtime[mi];
      var (change, s1) := Change(c, s, k.value, rt.counterB);
      var value := Apply(k.value.operation, rt.counterA, change);
      var zeroed := rt.counterA != 0 && value == 0 && !s.zeroedA;
      (WithRuntime(s1, mi, rt.(counterA := value)).(zeroedA := s.zeroedA || zeroed), zeroed)
  }

  function UpdateB(c: Config, s: Core, mi: nat, k: Option<Counter>, oldA: nat): (r: (Core, bool))
    requires mi < |s.runtime|
    ensures |r.0.runtime| == |s.runtime|
    ensures r.0 == s.(draws := r.0.draws, zeroedB := r.0.zeroedB, runtime := s.runtime[mi := r.0.runtime[mi]])
    ensures r.0.runtime[mi] == s.runtime[mi].(counterB := r.0.runtime[mi].counterB)
    ensures if r.1 then Unzeroed(r.0) < Unzeroed(s) else Unzeroed(r.0) == Unzeroed(s)
  {
    if k.None? then (s, false)
    else
      var rt := s.runtime[mi];
      var (change, s1) := Change(c, s, k.value, oldA);
      var value := Apply(k.value.operation, rt.counterB, change);
      var zeroed := rt.counterB != 0 && value == 0 && !s.zeroedB;
      (WithRuntime(s1, mi, rt.(counterB := value)).(zeroedB := s.zeroedB || zeroed), zeroed)
  }

  /** Both counters: the new state and whether CounterZero has to be triggered. */
  function UpdateBoth(c: Config, s: Core, mi: nat): (r: (Core, bool))
    requires Running(c, s, mi)
    ensures Running(c, r.0, mi) && OnlyMoved(s, r.0, mi)
    ensures Unzeroed(r.0) <= Unzeroed(s) && (r.1 ==> Unzeroed(r.0) < Unzeroed(s))
  {
    var st := Current(c, s, mi);
    var (s1, zeroA) := UpdateA(c, s, mi, st.counterA);
    var (s2, zeroB) := UpdateB(c, s1, mi, st.counterB, s.runtime[mi].counterA);
    (s2, zeroA || zeroB)
  }

  // ---------- Transitions ----------

  function Choose(c: Config, s: Core, mi: nat, e: Event): (r: (Option<nat>, Core))
    requires Running(c, s, mi)
    ensures Running(c, r.1, mi) && r.1 == s.(draws := r.1.draws)
    ensures r.0.Some? ==> RealTarget(r.0.value, |c.machines[mi].states|)
  {
    var st := Current(c, s, mi);
    assert ValidState(st, |c.machines[mi].states|);
    if e in st.transitions then
      TargetIsReal(st, |c.machines[mi].states|, e, c.tape.unit(s.draws));
      (SampleState(st, e, c.tape.unit(s.draws)), s.(draws := s.draws + 1))
    else (None, s)
  }

  /** The pending target after machine mi raised one more signal. */
  function Raise(pending: Option<SignalTarget>, mi: nat): Option<SignalTarget> {
    match pending
    case None => Some(AllExcept(mi))
    case Some(_) => Some(All)
  }

  /** Move to another state and sample its limit; staying keeps the limit. */
  function Enter(c: Config, s: Core, mi: nat, next: nat): (r: Core)
    requires Running(c, s, mi) && next < |c.machines[mi].states|
    ensures Running(c, r, mi) && OnlyMoved(s, r, mi)
    ensures r.runtime[mi].currentState == next
    ensures r == s.(draws := r.draws, runtime := s.runtime[mi := r.runtime[mi]])
  {
    assert ValidMachine(c.machines[mi]);
    if s.runtime[mi].currentState == next then s
    else
      var (limit, s1) := LimitOf(c, s, c.machines[mi].states[next]);
      WithRuntime(s1, mi, s.runtime[mi].(currentState := next, stateLimit := limit))
  }

  lemma NoteKeeps(c: Config, s: Core, mi: nat, n: Note)
    requires HasMachine(c, s, mi)
    ensures mi < |s.runtime| == |s.actions|
    ensures HasMachine(c, WithNote(s, n), mi) && OnlyMoved(s, WithNote(s, n), mi)
    ensures s.runtime[mi].currentState != STATE_END ==> Running(c, WithNote(s, n), mi)
  {
    hide ValidConfig;
  }

  /** A draw moves nothing, and what only moves a machine from there on only moves it from the beginning. */
  lemma DrawKeeps(s: Core, s0: Core, s1: Core, mi: nat)
    requires OnlyMoved(s, s0, mi) && s1 == s0.(draws := s1.draws)
    ensures OnlyMoved(s, s1, mi) && mi < |s1.runtime|
    ensures forall r :: OnlyMoved(s1, r, mi) ==> OnlyMoved(s, r, mi)
  {
  }

  lemma EndKeeps(c: Config, s: Core, mi: nat)
    requires Running(c, s, mi) && mi < |s.runtime|
    ensures var r := WithNote(WithRuntime(s, mi, s.runtime[mi].(currentState := STATE_END)), Left(mi));
            HasMachine(c, r, mi) && OnlyMoved(s, r, mi)
  {
    hide ValidConfig;
  }

  lemma RaiseKeeps(c: Config, s: Core, mi: nat)
    requires Running(c, s, mi)
    ensures var r := s.(signalPending := Raise(s.signalPending, mi), raised := s.raised + [mi]);
            HasMachine(c, r, mi) && OnlyMoved(s, r, mi)
  {
    hide ValidConfig;
  }

  function Transition(c: Config, s: Core, mi: nat, e: Event): (r: Moved)
    requires HasMachine(c, s, mi)
    ensures HasMachine(c, r.core, mi) && OnlyMoved(s, r.core, mi)
    decreases Unzeroed(s), 2
  {
    hide WellFormed, OnlyMoved;
    var s0 := WithNote(s, Fired(mi, e));
    NoteKeeps(c, s, mi, Fired(mi, e));
    if s.runtime[mi].currentState == STATE_END then Moved(s0, false)
    else
      var (next, s1) := Choose(c, s0, mi, e);
      DrawKeeps(s, s0, s1, mi);
      if next.None? then Moved(s1, false)
      else if next.value == STATE_END then
        EndKeeps(c, s1, mi);
        Moved(WithNote(WithRuntime(s1, mi, s1.runtime[mi].(currentState := STATE_END)), Left(mi)), true)
      else if next.value == STATE_SIGNAL then
        RaiseKeeps(c, s1, mi);
        Moved(s1.(signalPending := Raise(s1.signalPending, mi), raised := s1.raised + [mi]), false)
      else
        MoveTo(c, s1, mi, next.value)
  }

  /** Transition to a real state: enter it, update the counters, then schedule its action. */
  function MoveTo(c: Config, s: Core, mi: nat, next: nat): (r: Moved)
    requires Running(c, s, mi) && next < |c.machines[mi].states|
    ensures HasMachine(c, r.core, mi) && OnlyMoved(s, r.core, mi)
    decreases Unzeroed(s), 1
  {
    var s1 := Enter(c, s, mi, next);
    var below := BelowActionLimits(c, s1, mi);
    var k := UpdateCounter(c, s1, mi);
    var s2 := if k.allow && below then ScheduleAction(c, k.core, mi, next) else k.core;
    if s.runtime[mi].currentState == s2.runtime[mi].currentState && !k.changed then Moved(s2, false)
    else Moved(WithNote(s2, Left(mi)), true)
  }

  function UpdateCounter(c: Config, s: Core, mi: nat): (r: Counted)
    requires Running(c, s, mi)
    ensures HasMachine(c, r.core, mi) && OnlyMoved(s, r.core, mi)
    decreases Unzeroed(s), 0
  {
    var (s1, zeroed) := UpdateBoth(c, s, mi);
    if zeroed then
      var t := Transition(c, s1, mi, CounterZero);
      Counted(t.core, t.core.actions[mi].None?, t.changed)
    else Counted(s1, true, false)
  }

  /** Using up the limit and dropping the action keep the runtime well-formed. */
  lemma UseKeeps(c: Config, s: Core, mi: nat)
    requires Running(c, s, mi)
    ensures mi < |s.runtime| == |s.actions|
    ensures var rt := s.runtime[mi];
            var s1 := WithRuntime(s, mi, rt.(stateLimit := if rt.stateLimit > 0 then rt.stateLimit - 1 else 0));
            && Running(c, s1, mi) && OnlyMoved(s, s1, mi)
            && HasMachine(c, WithAction(s1, mi, None), mi)
            && (forall r :: OnlyMoved(WithAction(s1, mi, None), r, mi) ==> OnlyMoved(s, r, mi))
  {
    hide ValidConfig;
  }

  function DecrementLimit(c: Config, s: Core, mi: nat): (r: Core)
    requires Running(c, s, mi)
    ensures HasMachine(c, r, mi) && OnlyMoved(s, r, mi)
  {
    hide WellFormed, OnlyMoved;
    UseKeeps(c, s, mi);
    var rt := s.runtime[mi];
    var s1 := WithRuntime(s, mi, rt.(stateLimit := if rt.stateLimit > 0 then rt.stateLimit - 1 else 0));
    match Current(c, s1, mi).action
    case None => s1
    case Some(action) =>
      if s1.runtime[mi].stateLimit == 0 && HasLimit(action) then
        Transition(c, WithAction(s1, mi, None), mi, LimitReached).core
      else s1
  }

  /** A transition that, when it did not change the state, uses up one unit of the limit. */
  function TransitionAndCount(c: Config, s: Core, mi: nat, e: Event): (r: Core)
    requires HasMachine(c, s, mi)
    ensures HasMachine(c, r, mi) && OnlyMoved(s, r, mi)
  {
    var t := Transition(c, s, mi, e);
    if !t.changed && t.core.runtime[mi].currentState != STATE_END then DecrementLimit(c, t.core, mi)
    else t.core
  }

  // ---------- Events ----------

  /** The accounting of one event for one machine; `blocked` is the time just unblocked. */
  function Bump(rt: Runtime, e: TriggerEvent, blocked: nat): Runtime {
    match e
    case TENormalSent => rt.(normalSent := rt.normalSent + 1)
    case TEPaddingSent(_) => rt.(paddingSent := rt.paddingSent + 1)
    case TEBlockingEnd => rt.(blockingDuration := rt.blockingDuration + blocked)
    case _ => rt
  }

  /** What one event of the integrator does to machine mi: accounting, then its transition. */
  function Visit(c: Config, s: Core, mi: nat, e: TriggerEvent, blocked: nat): (r: Core)
    requires HasMachine(c, s, mi)
    ensures HasMachine(c, r, mi)
  {
    var s1 := WithRuntime(s, mi, Bump(s.runtime[mi], e, blocked));
    match e
    case TENormalRecv => Transition(c, s1, mi, NormalRecv).core
    case TEPaddingRecv => Transition(c, s1, mi, PaddingRecv).core
    case TETunnelRecv => Transition(c, s1, mi, TunnelRecv).core
    case TETunnelSent => Transition(c, s1, mi, TunnelSent).core
    case TENormalSent => Transition(c, s1, mi, NormalSent).core
    case TEPaddingSent(_) => TransitionAndCount(c, s1, mi, PaddingSent)
    case TEBlockingBegin(who) =>
      if mi == who then TransitionAndCount(c, s1, mi, BlockingBegin)
      else Transition(c, s1, mi, BlockingBegin).core
    case TEBlockingEnd => Transition(c, s1, mi, BlockingEnd).core
    case TETimerBegin(_) => TransitionAndCount(c, s1, mi, TimerBegin)
    case TETimerEnd(_) => Transition(c, s1, mi, TimerEnd).core
  }

  /** The loop over the machines from mi on. */
  function VisitFrom(c: Config, s: Core, mi: nat, e: TriggerEvent, blocked: nat): (r: Core)
    requires WellFormed(c, s) && mi <= |c.machines|
    ensures WellFormed(c, r)
    decreases |c.machines| - mi
  {
    if mi == |c.machines| then s
    else VisitFrom(c, Visit(c, s, mi, e, blocked), mi + 1, e, blocked)
  }

  /** The accounting that an event causes before any machine sees it. */
  function GlobalBooks(s: Core, e: TriggerEvent): Core {
    match e
    case TENormalSent => s.(normalSent := s.normalSent + 1)
    case TEPaddingSent(_) => s.(paddingSent := s.paddingSent + 1)
    case TEBlockingBegin(_) =>
      if s.blockingActive then s else s.(blockingActive := true, blockingStarted := s.now)
    case TEBlockingEnd =>
      s.(blockingDuration := s.blockingDuration + Unblocked(s), blockingActive := false)
    case _ => s
  }

  function Unblocked(s: Core): nat {
    if s.blockingActive then Since(s.now, s.blockingStarted) else 0
  }

  /** Events that name a machine go to that machine only. */
  predicate Addressed(e: TriggerEvent) {
    e.TEPaddingSent? || e.TETimerBegin? || e.TETimerEnd?
  }

  function ProcessEvent(c: Config, s: Core, e: TriggerEvent): (r: Core)
    requires WellFormed(c, s)
    ensures WellFormed(c, r)
  {
    var s1 := GlobalBooks(s, e);
    if Addressed(e) then
      if e.machine < |c.machines| then Visit(c, s1, e.machine, e, 0) else s1
    else VisitFrom(c, s1, 0, e, Unblocked(s))
  }

  function ProcessEvents(c: Config, s: Core, events: seq<TriggerEvent>): (r: Core)
    requires WellFormed(c, s)
    ensures WellFormed(c, r)
    decreases |events|
  {
    if events == [] then s else ProcessEvents(c, ProcessEvent(c, s, events[0]), events[1..])
  }

  // ---------- Signals ----------

  function SignalFrom(c: Config, s: Core, mi: nat, excluded: Option<nat>): (r: Core)
    requires WellFormed(c, s) && mi <= |c.machines|
    ensures WellFormed(c, r)
    decreases |c.machines| - mi
  {
    if mi == |c.machines| then s
    else
      var s1 := if excluded == Some(mi) then s else Transition(c, s, mi, Signal).core;
      SignalFrom(c, s1, mi + 1, excluded)
  }

  function Excluded(t: SignalTarget): Option<nat> {
    match t
    case All => None
    case AllExcept(m) => Some(m)
  }

  /** `signal_pending.take()`. */
  function Take(s: Core): Core {
    s.(signalPending := None, raised := [])
  }

  /** Deliver the pending signal; a second round reaches the excluded machine alone. */
  function Deliver(c: Config, s: Core): (r: Core)
    requires WellFormed(c, s)
    ensures WellFormed(c, r)
  {
    if s.signalPending.None? then s
    else
      var excluded := Excluded(s.signalPending.value);
      var s1 := SignalFrom(c, Take(s), 0, excluded);
      if s1.signalPending.None? then s1
      else
        if excluded.Some? then Transition(c, Take(s1), excluded.value, Signal).core else Take(s1)
  }

  // ---------- A call ----------

  function NoActions(c: Config): seq<Option<TriggerAction>> {
    seq(|c.machines|, i => None)
  }

  /** The state at the start of a call: no actions, unset counter flags, the new time. */
  function Begin(c: Config, s: Core, now: int): (r: Core)
    requires WellFormed(c, s)
    ensures WellFormed(c, r)
  {
    s.(actions := NoActions(c), zeroedA := false, zeroedB := false, now := now, log := [])
  }

  function TriggerEvents(c: Config, s: Core, events: seq<TriggerEvent>, now: int): (r: Core)
    requires WellFormed(c, s)
    ensures WellFormed(c, r)
  {
    Deliver(c, ProcessEvents(c, Begin(c, s, now), events))
  }

  // ---------- The start ----------

  function StartRuntime(c: Config, mi: nat): Runtime
    requires mi < |c.machines|
  {
    Runtime(0, 0, 0, 0, 0, c.start, 1000 * c.machines[mi].allowedBlockedMicrosec, 0, 0)
  }

  /** Sample the limits of the start states, from machine mi on; a start state without action keeps 0. */
  function StartLimits(c: Config, s: Core, mi: nat): (r: Core)
    requires WellFormed(c, s) && mi <= |c.machines|
    ensures WellFormed(c, r)
    decreases |c.machines| - mi
  {
    if mi == |c.machines| then s
    else
      assert ValidMachine(c.machines[mi]);
      match c.machines[mi].states[0].action
      case None => StartLimits(c, s, mi + 1)
      case Some(action) =>
        var (limit, s1) := SampleLimit(c, s, action);
        StartLimits(c, WithRuntime(s1, mi, s1.runtime[mi].(stateLimit := limit)), mi + 1)
  }

  /** The runtime before any limit is sampled. */
  function AtStart(c: Config): (r: Core)
    requires ValidConfig(c)
    ensures WellFormed(c, r)
  {
    assert forall i :: 0 <= i < |c.machines| ==> ValidMachine(c.machines[i]);
    Core(c.start, 0, NoActions(c), seq(|c.machines|, i requires 0 <= i < |c.machines| => StartRuntime(c, i)),
         0, 0, 0, c.start, false, None, false, false, [], [])
  }

  function Start(c: Config): (r: Core)
    requires ValidConfig(c)
    ensures WellFormed(c, r)
  {
    StartLimits(c, AtStart(c), 0)
  }

  // ---------- The returned actions ----------

  /** The actions that are there, in the order of their machines. */
  function Present(actions: seq<Option<TriggerAction>>): seq<TriggerAction> {
    if actions == [] then []
    else (if actions[0].Some? then [actions[0].value] else []) + Present(actions[1..])
  }

  /** All actions are of machine `first` or a later one. */
  ghost predicate OfMachinesFrom(actions: seq<TriggerAction>, first: nat) {
    forall i :: 0 <= i < |actions| ==> first <= actions[i].machine
  }

  lemma PrependAction(a: TriggerAction, rest: seq<TriggerAction>, machines: nat)
    requires a.machine < machines && OnePerMachine(rest, machines) && OfMachinesFrom(rest, a.machine + 1)
    ensures OnePerMachine([a] + rest, machines) && OfMachinesFrom([a] + rest, a.machine)
  {
    var all := [a] + rest;
    forall i | 0 <= i < |all|
      ensures i > 0 ==> all[i] == rest[i - 1]
      ensures a.machine <= all[i].machine < machines
      ensures i > 0 ==> a.machine < all[i].machine
    {
      if i > 0 {
        assert all[i] == rest[i - 1];
      }
    }
    forall i, j | 0 <= i < j < |all|
      ensures all[i].machine < all[j].machine
    {
      assert all[j] == rest[j - 1];
      if i > 0 {
        assert all[i] == rest[i - 1];
      }
    }
  }

  lemma NoActionsAtAll(machines: nat)
    ensures OnePerMachine([], machines) && OfMachinesFrom([], machines)
  {
  }

  lemma EarlierMachines(actions: seq<TriggerAction>, first: nat)
    requires OfMachinesFrom(actions, first + 1)
    ensures OfMachinesFrom(actions, first)
  {
  }

  lemma {:induction false} PresentOnePerMachine(actions: seq<Option<TriggerAction>>, first: nat)
    requires forall i :: 0 <= i < |actions| ==> Names(actions[i], first + i)
    ensures OnePerMachine(Present(actions), first + |actions|)
    ensures OfMachinesFrom(Present(actions), first)
    decreases |actions|
  {
    hide OnePerMachine, OfMachinesFrom;
    if actions == [] {
      NoActionsAtAll(first);
    } else {
      assert forall i :: 0 <= i < |actions[1..]| ==> actions[1..][i] == actions[i + 1];
      PresentOnePerMachine(actions[1..], first + 1);
      var rest := Present(actions[1..]);
      if actions[0].Some? {
        assert Names(actions[0], first + 0);
        PrependAction(actions[0].value, rest, first + |actions|);
      } else {
        EarlierMachines(rest, first);
        assert Present(actions) == rest;
      }
    }
  }

  /** Every call returns at most one action per machine, each of an existing machine. */
  lemma ReturnedActions(c: Config, s: Core, events: seq<TriggerEvent>, now: int)
    requires WellFormed(c, s)
    ensures OnePerMachine(Present(TriggerEvents(c, s, events, now).actions), |c.machines|)
  {
    hide ValidConfig, TriggerEvents;
    PresentOnePerMachine(TriggerEvents(c, s, events, now).actions, 0);
  }
}
