/** Validation of states and machines, and the law of choosing a transition. */
module States {
  import opened Prelude
  import opened Machines

  datatype Invalid =
    | OutOfBoundsIndex(index: nat)
    | DuplicateIndex(index: nat)
    | BadProbability
    | BadTotal
    | BadDistribution
    | BadPaddingFrac
    | BadBlockingFrac
    | NoStates
    | TooManyStates

  // ---------- What is wrong ----------

  /** The first transition at fault is the k-th, and `e` says why. */
  ghost predicate FaultAt(v: seq<Trans>, k: nat, numStates: nat, e: Invalid)
    requires k < |v|
  {
    var t := v[k];
    && ValidUpTo(v, k, numStates)
    && match e
       case OutOfBoundsIndex(index) => index == t.target && !RealTarget(t.target, numStates)
       case DuplicateIndex(index) =>
         index == t.target && RealTarget(t.target, numStates) && exists j :: 0 <= j < k && v[j].target == t.target
       case BadProbability =>
         && RealTarget(t.target, numStates) && !(0.0 < t.prob <= 1.0)
         && forall j :: 0 <= j < k ==> v[j].target != t.target
       case _ => false
  }

  ghost predicate VectorFault(v: seq<Trans>, numStates: nat, e: Invalid) {
    || (exists k :: 0 <= k < |v| && FaultAt(v, k, numStates, e))
    || (e == BadTotal && ValidUpTo(v, |v|, numStates) && !(0.0 < Prefix(v, |v|) <= 1.0))
  }

  /** A vector of the state is at fault, or none is but a distribution. */
  ghost predicate StateFault(s: State, numStates: nat, e: Invalid) {
    || (exists event :: event in s.transitions && VectorFault(s.transitions[event], numStates, e))
    || (e == BadDistribution && forall event :: event in s.transitions ==> ValidVector(s.transitions[event], numStates))
  }

  // ---------- The loops of the source ----------

  /** The check of one transition vector: a running sum and the set of targets seen. */
  method ValidateVector(v: seq<Trans>, numStates: nat) returns (r: Result<(), Invalid>)
    ensures r.Ok? <==> ValidVector(v, numStates)
    ensures r.Err? ==> VectorFault(v, numStates, r.error)
  {
    var sum := 0.0;
    var seen: set<nat> := {};
    for i := 0 to |v|
      invariant ValidUpTo(v, i, numStates)
      invariant sum == Prefix(v, i)
      invariant forall x :: x in seen <==> exists k :: 0 <= k < i && v[k].target == x
    {
      var t := v[i];
      if t.target >= numStates && t.target != STATE_END && t.target != STATE_SIGNAL {
        assert FaultAt(v, i, numStates, OutOfBoundsIndex(t.target));
        return Err(OutOfBoundsIndex(t.target));
      }
      if t.target in seen {
        assert FaultAt(v, i, numStates, DuplicateIndex(t.target));
        return Err(DuplicateIndex(t.target));
      }
      seen := seen + {t.target};
      if t.prob <= 0.0 || t.prob > 1.0 {
        assert FaultAt(v, i, numStates, BadProbability);
        return Err(BadProbability);
      }
      sum := sum + t.prob;
    }
    if sum <= 0.0 || sum > 1.0 {
      return Err(BadTotal);
    }
    return Ok(());
  }

  method ValidateState(s: State, numStates: nat) returns (r: Result<(), Invalid>)
    ensures r.Ok? <==> ValidState(s, numStates)
    ensures r.Err? ==> StateFault(s, numStates, r.error)
  {
    for i := 0 to |EVENTS|
      invariant forall k :: 0 <= k < i ==>
        EVENTS[k] in s.transitions ==> ValidVector(s.transitions[EVENTS[k]], numStates)
    {
      if EVENTS[i] in s.transitions {
        var one := ValidateVector(s.transitions[EVENTS[i]], numStates);
        if one.Err? {
          return one;
        }
      }
    }
    forall e | e in s.transitions
      ensures ValidVector(s.transitions[e], numStates)
    {
      EventsComplete(e);
    }
    if !ValidAction(s.action) || !ValidCounter(s.counterA) || !ValidCounter(s.counterB) {
      return Err(BadDistribution);
    }
    return Ok(());
  }

  lemma EventsComplete(e: Event)
    ensures exists k :: 0 <= k < |EVENTS| && EVENTS[k] == e
  {
    var k := match e
      case NormalRecv => 0 case PaddingRecv => 1 case TunnelRecv => 2 case NormalSent => 3
      case PaddingSent => 4 case TunnelSent => 5 case BlockingBegin => 6 case BlockingEnd => 7
      case LimitReached => 8 case CounterZero => 9 case TimerBegin => 10 case TimerEnd => 11
      case Signal => 12;
    assert EVENTS[k] == e;
  }

  method ValidateMachine(m: Machine) returns (r: Result<(), Invalid>)
    ensures r.Ok? <==> ValidMachine(m)
    ensures r == Err(BadPaddingFrac) <==> !(0.0 <= m.maxPaddingFrac <= 1.0)
    ensures r == Err(BadBlockingFrac) <==> 0.0 <= m.maxPaddingFrac <= 1.0 && !(0.0 <= m.maxBlockingFrac <= 1.0)
    ensures 0.0 <= m.maxPaddingFrac <= 1.0 && 0.0 <= m.maxBlockingFrac <= 1.0 ==>
              && (r == Err(NoStates) <==> |m.states| == 0)
              && (r == Err(TooManyStates) <==> |m.states| > STATE_MAX)
              && (0 < |m.states| <= STATE_MAX && r.Err? ==>
                    exists k :: 0 <= k < |m.states| && StateFault(m.states[k], |m.states|, r.error)
                                && forall j :: 0 <= j < k ==> ValidState(m.states[j], |m.states|))
  {
    if m.maxPaddingFrac < 0.0 || m.maxPaddingFrac > 1.0 {
      return Err(BadPaddingFrac);
    }
    if m.maxBlockingFrac < 0.0 || m.maxBlockingFrac > 1.0 {
      return Err(BadBlockingFrac);
    }
    if |m.states| == 0 {
      return Err(NoStates);
    }
    if |m.states| > STATE_MAX {
      return Err(TooManyStates);
    }
    for i := 0 to |m.states|
      invariant forall k :: 0 <= k < i ==> ValidState(m.states[k], |m.states|)
    {
      var one := ValidateState(m.states[i], |m.states|);
      if one.Err? {
        return one;
      }
    }
    return Ok(());
  }

  method Sample(s: State, e: Event, r: Unit) returns (target: Option<nat>)
    ensures target == SampleState(s, e, r)
  {
    if e in s.transitions {
      var vector := s.transitions[e];
      var sum := 0.0;
      for i := 0 to |vector|
        invariant sum == Prefix(vector, i)
        invariant PickFrom(vector, 0, r) == PickFrom(vector, i, r)
      {
        sum := sum + vector[i].prob;
        if r < sum {
          return Some(vector[i].target);
        }
      }
    }
    return None;
  }

  // ---------- Sampling partitions [0, 1) ----------

  /** r lies in the interval that belongs to transition k. */
  ghost predicate InInterval(v: seq<Trans>, k: nat, r: real)
    requires k < |v|
  {
    Prefix(v, k) <= r < Prefix(v, k + 1)
  }

  /** The interval of transition k lies in [0, 1] and is as long as its probability. */
  ghost predicate ProperInterval(v: seq<Trans>, k: nat)
    requires k < |v|
  {
    && 0.0 <= Prefix(v, k) && Prefix(v, k + 1) <= 1.0
    && Prefix(v, k + 1) - Prefix(v, k) == v[k].prob
  }

  lemma {:induction false} PrefixMonotone(v: seq<Trans>, i: nat, j: nat)
    requires i <= j <= |v|
    requires forall k :: 0 <= k < |v| ==> 0.0 < v[k].prob
    ensures Prefix(v, i) <= Prefix(v, j)
    ensures i < j ==> Prefix(v, i) < Prefix(v, j)
    decreases j - i
  {
    if i < j {
      PrefixMonotone(v, i, j - 1);
    }
  }

  lemma {:induction false} PickFromFinds(v: seq<Trans>, k: nat, r: real)
    requires k <= |v| && Prefix(v, k) <= r
    ensures match PickFrom(v, k, r)
            case None => Prefix(v, |v|) <= r
            case Some(t) => exists i :: k <= i < |v| && InInterval(v, i, r) && v[i].target == t
    decreases |v| - k
  {
    if k < |v| && Prefix(v, k + 1) <= r {
      PickFromFinds(v, k + 1, r);
    } else if k < |v| {
      assert InInterval(v, k, r);
    }
  }

  /**
   For a valid state and any r in [0, 1): target t is sampled exactly when r lies in the
   interval of the one transition to t; nothing is sampled exactly when r is at or above
   the total. Intervals do not overlap and each is as long as its probability.
   */
  lemma SamplingPartitions(s: State, numStates: nat, e: Event, r: Unit)
    requires ValidState(s, numStates) && e in s.transitions
    ensures var v := s.transitions[e];
            && (forall k :: 0 <= k < |v| ==>
                  (SampleState(s, e, r) == Some(v[k].target) <==> InInterval(v, k, r)))
            && (SampleState(s, e, r) == None <==> Prefix(v, |v|) <= r)
            && (forall i, j :: 0 <= i < j < |v| ==> !(InInterval(v, i, r) && InInterval(v, j, r)))
            && (forall k :: 0 <= k < |v| ==> ProperInterval(v, k))
    ensures SampleState(s, e, r).Some? ==> RealTarget(SampleState(s, e, r).value, numStates)
  {
    var v := s.transitions[e];
    assert ValidVector(v, numStates);
    PickFromFinds(v, 0, r);
    forall i, j | 0 <= i < j < |v|
      ensures !(InInterval(v, i, r) && InInterval(v, j, r))
    {
      PrefixMonotone(v, i + 1, j);
    }
    forall k | 0 <= k < |v|
      ensures ProperInterval(v, k)
      ensures InInterval(v, k, r) ==> r < Prefix(v, |v|)
    {
      PrefixMonotone(v, 0, k);
      PrefixMonotone(v, k + 1, |v|);
    }
  }

  /** An event without transitions samples nothing. */
  lemma TargetIsReal(s: State, numStates: nat, e: Event, r: Unit)
    requires ValidState(s, numStates)
    ensures SampleState(s, e, r).Some? ==> RealTarget(SampleState(s, e, r).value, numStates)
  {
    if e in s.transitions {
      SamplingPartitions(s, numStates, e, r);
    }
  }
}
