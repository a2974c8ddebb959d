/**
 Machines as the framework sees them: states, actions, counters, events, and the
 oracle that stands for the random number generator.
 */
module Machines {
  import opened Prelude

  const STATE_END := 0xFFFF_FFFF
  const STATE_SIGNAL := STATE_END - 1
  const STATE_MAX := STATE_SIGNAL - 1
  const STATE_LIMIT_MAX := U64_MAX
  const MAX_SAMPLED_TIMEOUT := 86_400_000_000.0
  const MAX_SAMPLED_TIMER_DURATION := 86_400_000_000.0
  const MAX_SAMPLED_BLOCK_DURATION := 86_400_000_000.0

  datatype Timer = ActionTimer | InternalTimer | AllTimers

  /** A distribution: `valid` is the verdict of its parameter check. */
  datatype Dist = Dist(id: nat, valid: bool)

  datatype Action =
    | Cancel(timer: Timer)
    | SendPadding(bypass: bool, replace: bool, timeout: Dist, limit: Option<Dist>)
    | BlockOutgoing(bypass: bool, replace: bool, timeout: Dist, duration: Dist, limit: Option<Dist>)
    | UpdateTimer(replace: bool, duration: Dist, limit: Option<Dist>)

  datatype Operation = Increment | Decrement | Replace

  datatype Counter = Counter(operation: Operation, dist: Option<Dist>, copy: bool)

  datatype Event =
    | NormalRecv | PaddingRecv | TunnelRecv | NormalSent | PaddingSent | TunnelSent
    | BlockingBegin | BlockingEnd | LimitReached | CounterZero | TimerBegin | TimerEnd | Signal

  const EVENTS: seq<Event> :=
    [NormalRecv, PaddingRecv, TunnelRecv, NormalSent, PaddingSent, TunnelSent,
     BlockingBegin, BlockingEnd, LimitReached, CounterZero, TimerBegin, TimerEnd, Signal]

  datatype TriggerEvent =
    | TENormalRecv
    | TEPaddingRecv
    | TETunnelRecv
    | TENormalSent
    | TEPaddingSent(machine: nat)
    | TETunnelSent
    | TEBlockingBegin(machine: nat)
    | TEBlockingEnd
    | TETimerBegin(machine: nat)
    | TETimerEnd(machine: nat)

  /** What the framework asks of its integrator; times are nanoseconds. */
  datatype TriggerAction =
    | TACancel(machine: nat, timer: Timer)
    | TASendPadding(machine: nat, wait: nat, bypass: bool, replace: bool)
    | TABlockOutgoing(machine: nat, wait: nat, duration: nat, bypass: bool, replace: bool)
    | TAUpdateTimer(machine: nat, duration: nat, replace: bool)

  /** What a call returns: at most one action per machine, of machines that exist, in their order. */
  predicate OnePerMachine(actions: seq<TriggerAction>, machines: nat) {
    && (forall i :: 0 <= i < |actions| ==> actions[i].machine < machines)
    && (forall i, j :: 0 <= i < j < |actions| ==> actions[i].machine < actions[j].machine)
  }

  datatype Trans = Trans(target: nat, prob: real)

  datatype State = State(action: Option<Action>, counterA: Option<Counter>, counterB: Option<Counter>,
                         transitions: map<Event, seq<Trans>>)

  datatype Machine = Machine(allowedPaddingPackets: nat, maxPaddingFrac: real,
                             allowedBlockedMicrosec: nat, maxBlockingFrac: real,
                             states: seq<State>)

  type Unit = r: real | 0.0 <= r < 1.0 witness 0.0
  type NonNegative = r: real | 0.0 <= r witness 0.0

  /**
   The random number generator as a tape. `unit(k)` is what `gen_range(0.0..1.0)` gives
   when it is the k-th draw, `amount(d, k)` what sampling distribution `d` gives then.
   Every theorem holds for every tape.
   */
  datatype Tape = Tape(unit: nat -> Unit, amount: (Dist, nat) -> NonNegative)

  // ---------- Sampling an action ----------

  function RoundToU64(x: NonNegative): nat {
    Min((x + 0.5).Floor, U64_MAX)
  }

  function Capped(x: NonNegative, cap: NonNegative): NonNegative {
    if x <= cap then x else cap
  }

  function Limit(a: Action): Option<Dist> {
    match a
    case Cancel(_) => None
    case SendPadding(_, _, _, limit) => limit
    case BlockOutgoing(_, _, _, _, limit) => limit
    case UpdateTimer(_, _, limit) => limit
  }

  predicate HasLimit(a: Action) {
    Limit(a).Some?
  }

  // ---------- Validation ----------

  predicate ValidDist(d: Option<Dist>) {
    d.Some? ==> d.value.valid
  }

  predicate ValidAction(a: Option<Action>) {
    match a
    case None => true
    case Some(Cancel(_)) => true
    case Some(SendPadding(_, _, t, l)) => t.valid && ValidDist(l)
    case Some(BlockOutgoing(_, _, t, d, l)) => t.valid && d.valid && ValidDist(l)
    case Some(UpdateTimer(_, d, l)) => d.valid && ValidDist(l)
  }

  predicate ValidCounter(c: Option<Counter>) {
    c.Some? ==> ValidDist(c.value.dist)
  }

  predicate RealTarget(t: nat, numStates: nat) {
    t < numStates || t == STATE_END || t == STATE_SIGNAL
  }

  /** The sum of the first k probabilities. */
  function Prefix(v: seq<Trans>, k: nat): real
    requires k <= |v|
  {
    if k == 0 then 0.0 else Prefix(v, k - 1) + v[k - 1].prob
  }

  /** The per-transition checks, for the first k transitions. */
  ghost predicate ValidUpTo(v: seq<Trans>, k: nat, numStates: nat)
    requires k <= |v|
  {
    && (forall i :: 0 <= i < k ==> RealTarget(v[i].target, numStates) && 0.0 < v[i].prob <= 1.0)
    && (forall i, j :: 0 <= i < j < k ==> v[i].target != v[j].target)
  }

  ghost predicate ValidVector(v: seq<Trans>, numStates: nat) {
    ValidUpTo(v, |v|, numStates) && 0.0 < Prefix(v, |v|) <= 1.0
  }

  ghost predicate ValidState(s: State, numStates: nat) {
    && (forall e :: e in s.transitions ==> ValidVector(s.transitions[e], numStates))
    && ValidAction(s.action)
    && ValidCounter(s.counterA)
    && ValidCounter(s.counterB)
  }

  ghost predicate ValidMachine(m: Machine) {
    && 0.0 <= m.maxPaddingFrac <= 1.0
    && 0.0 <= m.maxBlockingFrac <= 1.0
    && 0 < |m.states| <= STATE_MAX
    && forall i :: 0 <= i < |m.states| ==> ValidState(m.states[i], |m.states|)
  }

  // ---------- Choosing the next state ----------

  /** The target of the first transition, from index k on, whose running sum exceeds r. */
  function PickFrom(v: seq<Trans>, k: nat, r: real): Option<nat>
    requires k <= |v|
    decreases |v| - k
  {
    if k == |v| then None
    else if r < Prefix(v, k + 1) then Some(v[k].target)
    else PickFrom(v, k + 1, r)
  }

  function SampleState(s: State, e: Event, r: real): Option<nat> {
    if e in s.transitions then PickFrom(s.transitions[e], 0, r) else None
  }
}
