/**
 What reported events do, told event by event: which machines are asked to transition and on
 what, what is counted, when a limit is reached, and what a call starts from and returns.
 */
module EventEffects {
  import opened Prelude
  import opened Machines
  import opened Core = FrameworkSpec
  import opened TransitionEffects
  import opened Accounting
  import opened Signals

  // ---------- Uses of a limit ----------

  predicate Limited(a: Option<Action>) {
    match a
    case Some(SendPadding(_, _, _, limit)) => limit.Some?
    case Some(BlockOutgoing(_, _, _, _, limit)) => limit.Some?
    case Some(UpdateTimer(_, _, limit)) => limit.Some?
    case _ => false
  }

  /**
   A transition that counts: if the machine still runs and reported no change, its limit falls by
   one, not below zero; at zero, a limited action is dropped and LimitReached follows.
   */
  lemma UseOfLimit(c: Config, s: Core.Core, mi: nat, e: Event)
    requires HasMachine(c, s, mi)
    ensures var t := Transition(c, s, mi, e);
            var r := TransitionAndCount(c, s, mi, e);
            && (t.changed || t.core.runtime[mi].currentState == STATE_END ==> r == t.core)
            && (!t.changed && t.core.runtime[mi].currentState != STATE_END ==>
                  var rt := t.core.runtime[mi];
                  var left := if rt.stateLimit == 0 then 0 else rt.stateLimit - 1;
                  var fell := t.core.(runtime := t.core.runtime[mi := rt.(stateLimit := left)]);
                  var dropped := fell.(actions := fell.actions[mi := None]);
                  && HasMachine(c, dropped, mi)
                  && r == if left == 0 && Limited(c.machines[mi].states[rt.currentState].action)
                          then Transition(c, dropped, mi, LimitReached).core else fell)
  {
    hide ValidConfig, Transition, OnlyMoved;
    var t := Transition(c, s, mi, e);
    if !t.changed && t.core.runtime[mi].currentState != STATE_END {
      UseKeeps(c, t.core, mi);
    }
  }

  // ---------- Who is asked, and on what ----------

  /** Machine i was asked on what only its own counters and limit cause, or left its state. */
  predicate Internal(n: Note, i: nat) {
    n in {Left(i), Fired(i, CounterZero), Fired(i, LimitReached)}
  }

  /** From `log` to `more` only internal notes of machine i were added. */
  ghost predicate Follows(log: seq<Note>, more: seq<Note>, i: nat) {
    log <= more && forall k :: |log| <= k < |more| ==> Internal(more[k], i)
  }

  /** From `log` to `more` machine i was asked on e, and then only internal notes of it were added. */
  ghost predicate AskedAndFollows(log: seq<Note>, more: seq<Note>, i: nat, e: Event) {
    Follows(log + [Fired(i, e)], more, i)
  }

  lemma FollowsOn(a: seq<Note>, b: seq<Note>, d: seq<Note>, i: nat)
    requires Follows(a, b, i) && Follows(b, d, i)
    ensures Follows(a, d, i)
  {
    assert forall k :: |a| <= k < |b| ==> d[k] == b[k];
  }

  lemma AppendFollows(log: seq<Note>, n: Note, i: nat)
    requires Internal(n, i)
    ensures Follows(log, log, i) && Follows(log, log + [n], i)
  {
  }

  lemma AskedAlone(log: seq<Note>, i: nat, e: Event)
    ensures AskedAndFollows(log, log + [Fired(i, e)], i, e)
    ensures AskedAndFollows(log, log + [Fired(i, e), Left(i)], i, e)
  {
    assert log + [Fired(i, e)] + [Left(i)] == log + [Fired(i, e), Left(i)];
    AppendFollows(log + [Fired(i, e)], Left(i), i);
  }

  lemma AskedAndMore(log: seq<Note>, more: seq<Note>, i: nat, e: Event)
    requires Follows(log + [Fired(i, e)], more, i)
    ensures AskedAndFollows(log, more, i, e)
  {
  }

  lemma {:induction false} TransitionAsks(c: Config, s: Core.Core, mi: nat, e: Event)
    requires HasMachine(c, s, mi)
    ensures AskedAndFollows(s.log, Transition(c, s, mi, e).core.log, mi, e)
    decreases Unzeroed(s), 2
  {
    hide ValidConfig, OnlyMoved, MoveTo, Choose, Follows, AskedAndFollows, Transition, Target;
    var asked := s.log + [Fired(mi, e)];
    AskedAlone(s.log, mi, e);
    if s.runtime[mi].currentState == STATE_END {
      EndedStays(c, s, mi, e);
    } else {
      EntersNothing(c, s, mi, e);
      Chooses(c, s, mi, e);
      var next := Target(c, s, mi, e);
      if next.Some? && next.value < |c.machines[mi].states| {
        SampledReal(c, s, mi, e, next.value);
        MoveFollows(c, s.(draws := s.draws + 1, log := asked), mi, next.value);
        AskedAndMore(s.log, Transition(c, s, mi, e).core.log, mi, e);
      }
    }
  }

  lemma {:induction false} MoveFollows(c: Config, s: Core.Core, mi: nat, next: nat)
    requires Running(c, s, mi) && next < |c.machines[mi].states|
    ensures Follows(s.log, MoveTo(c, s, mi, next).core.log, mi)
    decreases Unzeroed(s), 1
  {
    hide ValidConfig, OnlyMoved, BelowActionLimits, UpdateBoth, Enter, ScheduleAction, Transition, Follows;
    var x := Enter(c, s, mi, next);
    var (z, zeroed) := UpdateBoth(c, x, mi);
    CountersKeepLog(c, x, mi);
    var k := UpdateCounter(c, x, mi).core;
    AppendFollows(k.log, Left(mi), mi);
    AppendFollows(s.log, Fired(mi, CounterZero), mi);
    if zeroed {
      TransitionAsks(c, z, mi, CounterZero);
      FollowsOn(s.log, s.log + [Fired(mi, CounterZero)], k.log, mi);
    }
    FollowsOn(s.log, k.log, k.log + [Left(mi)], mi);
  }

  lemma CountersKeepLog(c: Config, x: Core.Core, mi: nat)
    requires Running(c, x, mi)
    ensures UpdateBoth(c, x, mi).0.log == x.log
  {
    hide ValidConfig;
  }

  lemma CountAsks(c: Config, s: Core.Core, mi: nat, e: Event)
    requires HasMachine(c, s, mi)
    ensures AskedAndFollows(s.log, TransitionAndCount(c, s, mi, e).log, mi, e)
  {
    hide ValidConfig, OnlyMoved, Transition, Follows;
    TransitionAsks(c, s, mi, e);
    UseOfLimit(c, s, mi, e);
    var t := Transition(c, s, mi, e).core;
    var rt := t.runtime[mi];
    var r := TransitionAndCount(c, s, mi, e);
    if r != t && r.log != t.log {
      var left := if rt.stateLimit == 0 then 0 else rt.stateLimit - 1;
      var dropped := t.(runtime := t.runtime[mi := rt.(stateLimit := left)], actions := t.actions[mi := None]);
      TransitionAsks(c, dropped, mi, LimitReached);
      AppendFollows(t.log, Fired(mi, LimitReached), mi);
      FollowsOn(t.log, t.log + [Fired(mi, LimitReached)], r.log, mi);
      FollowsOn(s.log + [Fired(mi, e)], t.log, r.log, mi);
    }
  }

  /** Of the notes added, machine i has none. */
  ghost predicate NotAsked(log: seq<Note>, more: seq<Note>, i: nat) {
    log <= more && forall k :: |log| <= k < |more| ==> more[k].machine != i
  }

  /** Of the notes added, machine i's first says that it was asked on e; its others are internal. */
  ghost predicate AskedFirst(log: seq<Note>, more: seq<Note>, i: nat, e: Event) {
    && log <= more
    && exists a :: |log| <= a < |more| && more[a] == Fired(i, e) && OnlyThere(log, more, i, a)
  }

  ghost predicate OnlyThere(log: seq<Note>, more: seq<Note>, i: nat, a: nat) {
    && (forall k :: |log| <= k < a && k < |more| ==> more[k].machine != i)
    && (forall k :: a < k < |more| && more[k].machine == i ==> Internal(more[k], i))
  }

  lemma AskedIsFirst(log: seq<Note>, more: seq<Note>, i: nat, e: Event)
    requires AskedAndFollows(log, more, i, e)
    ensures AskedFirst(log, more, i, e)
    ensures forall j :: j != i ==> NotAsked(log, more, j)
  {
    assert more[|log|] == (log + [Fired(i, e)])[|log|];
    assert OnlyThere(log, more, i, |log|);
  }

  lemma AskedThenNot(a: seq<Note>, b: seq<Note>, d: seq<Note>, i: nat, e: Event)
    requires AskedFirst(a, b, i, e) && NotAsked(b, d, i)
    ensures AskedFirst(a, d, i, e)
  {
    var p :| |a| <= p < |b| && b[p] == Fired(i, e) && OnlyThere(a, b, i, p);
    assert forall k :: 0 <= k < |b| ==> d[k] == b[k];
    assert OnlyThere(a, d, i, p);
  }

  lemma NotThenAsked(a: seq<Note>, b: seq<Note>, d: seq<Note>, i: nat, e: Event)
    requires NotAsked(a, b, i) && AskedFirst(b, d, i, e)
    ensures AskedFirst(a, d, i, e)
  {
    var p :| |b| <= p < |d| && d[p] == Fired(i, e) && OnlyThere(b, d, i, p);
    assert forall k :: 0 <= k < |b| ==> d[k] == b[k];
    assert OnlyThere(a, d, i, p);
  }

  lemma NotThenNot(a: seq<Note>, b: seq<Note>, d: seq<Note>, i: nat)
    requires NotAsked(a, b, i) && NotAsked(b, d, i)
    ensures NotAsked(a, d, i)
  {
    assert forall k :: 0 <= k < |b| ==> d[k] == b[k];
  }

  lemma VisitAsks(c: Config, s: Core.Core, mi: nat, e: TriggerEvent, blocked: nat)
    requires HasMachine(c, s, mi)
    ensures AskedAndFollows(s.log, Visit(c, s, mi, e, blocked).log, mi, EventOf(e))
  {
    hide ValidConfig, OnlyMoved, Transition, TransitionAndCount, AskedAndFollows;
    var s1 := WithRuntime(s, mi, Bump(s.runtime[mi], e, blocked));
    TransitionAsks(c, s1, mi, EventOf(e));
    CountAsks(c, s1, mi, EventOf(e));
  }

  lemma {:induction false} LoopAsks(c: Config, s: Core.Core, from: nat, e: TriggerEvent, blocked: nat, i: nat)
    requires WellFormed(c, s) && from <= |c.machines| && i < |c.machines|
    ensures var more := VisitFrom(c, s, from, e, blocked).log;
            if from <= i then AskedFirst(s.log, more, i, EventOf(e)) else NotAsked(s.log, more, i)
    decreases |c.machines| - from
  {
    hide ValidConfig, Visit, AskedFirst, NotAsked, AskedAndFollows;
    if from < |c.machines| {
      var s1 := Visit(c, s, from, e, blocked);
      VisitAsks(c, s, from, e, blocked);
      AskedIsFirst(s.log, s1.log, from, EventOf(e));
      LoopAsks(c, s1, from + 1, e, blocked, i);
      var more := VisitFrom(c, s1, from + 1, e, blocked).log;
      if i == from {
        AskedThenNot(s.log, s1.log, more, i, EventOf(e));
      } else if from < i {
        NotThenAsked(s.log, s1.log, more, i, EventOf(e));
      } else {
        NotThenNot(s.log, s1.log, more, i);
      }
    } else {
      NothingAdded(s.log, i);
    }
  }

  lemma NothingAdded(log: seq<Note>, i: nat)
    ensures NotAsked(log, log, i)
  {
  }

  lemma EventAsks(c: Config, s: Core.Core, e: TriggerEvent, i: nat)
    requires WellFormed(c, s) && i < |c.machines|
    ensures var more := ProcessEvent(c, s, e).log;
            if Addressed(e) && e.machine != i then NotAsked(s.log, more, i)
            else AskedFirst(s.log, more, i, EventOf(e))
  {
    hide ValidConfig, Visit, VisitFrom, AskedFirst, NotAsked, AskedAndFollows;
    var s1 := GlobalBooks(s, e);
    NothingAdded(s.log, i);
    if !Addressed(e) {
      LoopAsks(c, s1, 0, e, Unblocked(s), i);
    } else if e.machine < |c.machines| {
      VisitAsks(c, s1, e.machine, e, 0);
      AskedIsFirst(s1.log, Visit(c, s1, e.machine, e, 0).log, e.machine, EventOf(e));
    }
  }

  /**
   The table of events. A packet or blocking event asks every machine, whoever began the blocking;
   padding sent and timer events ask the machine they name and no other. Each machine asked is
   asked first on that event, and then only on CounterZero and LimitReached.
   */
  lemma EventTable(c: Config, s: Core.Core, e: TriggerEvent, i: nat)
    requires WellFormed(c, s) && i < |c.machines|
    ensures var more := ProcessEvent(c, s, e).log;
            match e
            case TENormalRecv => AskedFirst(s.log, more, i, NormalRecv)
            case TEPaddingRecv => AskedFirst(s.log, more, i, PaddingRecv)
            case TETunnelRecv => AskedFirst(s.log, more, i, TunnelRecv)
            case TENormalSent => AskedFirst(s.log, more, i, NormalSent)
            case TETunnelSent => AskedFirst(s.log, more, i, TunnelSent)
            case TEBlockingBegin(_) => AskedFirst(s.log, more, i, BlockingBegin)
            case TEBlockingEnd => AskedFirst(s.log, more, i, BlockingEnd)
            case TEPaddingSent(m) =>
              if m == i then AskedFirst(s.log, more, i, PaddingSent) else NotAsked(s.log, more, i)
            case TETimerBegin(m) =>
              if m == i then AskedFirst(s.log, more, i, TimerBegin) else NotAsked(s.log, more, i)
            case TETimerEnd(m) =>
              if m == i then AskedFirst(s.log, more, i, TimerEnd) else NotAsked(s.log, more, i)
  {
    hide ValidConfig, ProcessEvent, AskedFirst, NotAsked;
    EventAsks(c, s, e, i);
  }

  // ---------- What the machines asked do ----------

  /** An event that names a machine: what it counts, and whether it uses the limit of that machine. */
  lemma NamedEvent(c: Config, s: Core.Core, m: nat)
    requires WellFormed(c, s)
    ensures var counted := s.(paddingSent := s.paddingSent + 1);
            && (m >= |c.machines| ==>
                  && ProcessEvent(c, s, TEPaddingSent(m)) == counted
                  && ProcessEvent(c, s, TETimerBegin(m)) == s
                  && ProcessEvent(c, s, TETimerEnd(m)) == s)
            && (m < |c.machines| ==>
                  var own := s.runtime[m].(paddingSent := s.runtime[m].paddingSent + 1);
                  var sent := counted.(runtime := s.runtime[m := own]);
                  && HasMachine(c, sent, m)
                  && ProcessEvent(c, s, TEPaddingSent(m)) == TransitionAndCount(c, sent, m, PaddingSent)
                  && ProcessEvent(c, s, TETimerBegin(m)) == TransitionAndCount(c, s, m, TimerBegin)
                  && ProcessEvent(c, s, TETimerEnd(m)) == Transition(c, s, m, TimerEnd).core)
  {
    hide ValidConfig, Transition, TransitionAndCount, OnlyMoved;
    if m < |c.machines| {
      assert s.runtime[m := s.runtime[m]] == s.runtime;
    }
  }

  /** Machine i's runtime and slot, and the accounting of all machines, are the same. */
  ghost predicate SameSeat(a: Core.Core, b: Core.Core, i: nat) {
    && i < |a.runtime| && i < |b.runtime| && i < |a.actions| && i < |b.actions|
    && SameGlobalBooks(a, b) && b.runtime[i] == a.runtime[i] && b.actions[i] == a.actions[i]
  }

  /**
   Between s and r machine i took one turn: a transition on e, which used its limit if `counts`
   holds, from a state p that was for this machine like s.
   */
  ghost predicate TookTurn(c: Config, s: Core.Core, r: Core.Core, i: nat, e: Event, counts: bool) {
    exists p: Core.Core ::
      && HasMachine(c, p, i) && SameSeat(s, p, i)
      && SameSeat(if counts then TransitionAndCount(c, p, i, e) else Transition(c, p, i, e).core, r, i)
  }

  /** An event of all machines uses the limit of the machine that began blocking, and of no other. */
  predicate Counts(e: TriggerEvent, i: nat) {
    e == TEBlockingBegin(i)
  }

  lemma VisitSeat(c: Config, s: Core.Core, from: nat, e: TriggerEvent, blocked: nat, i: nat)
    requires HasMachine(c, s, from) && i < |c.machines| && i != from
    ensures SameSeat(s, Visit(c, s, from, e, blocked), i)
  {
    hide ValidConfig, Transition, TransitionAndCount;
  }

  lemma SeatsChain(a: Core.Core, b: Core.Core, d: Core.Core, i: nat)
    requires SameSeat(a, b, i) && SameSeat(b, d, i)
    ensures SameSeat(a, d, i)
  {
  }

  lemma {:induction false} LoopSeat(c: Config, s: Core.Core, from: nat, e: TriggerEvent, blocked: nat, i: nat)
    requires WellFormed(c, s) && i < from <= |c.machines|
    ensures SameSeat(s, VisitFrom(c, s, from, e, blocked), i)
    decreases |c.machines| - from
  {
    hide ValidConfig, Visit;
    if from < |c.machines| {
      VisitSeat(c, s, from, e, blocked, i);
      LoopSeat(c, Visit(c, s, from, e, blocked), from + 1, e, blocked, i);
    }
  }

  lemma OwnVisit(c: Config, s: Core.Core, e: TriggerEvent, blocked: nat, i: nat)
    requires HasMachine(c, s, i) && !Addressed(e)
    ensures var p := s.(runtime := s.runtime[i := Bump(s.runtime[i], e, blocked)]);
            && HasMachine(c, p, i)
            && Visit(c, s, i, e, blocked)
               == if Counts(e, i) then TransitionAndCount(c, p, i, EventOf(e)) else Transition(c, p, i, EventOf(e)).core
  {
    hide ValidConfig, Transition, TransitionAndCount;
  }

  /** s with the books of machine i bumped. */
  function Bumped(s: Core.Core, i: nat, e: TriggerEvent, blocked: nat): Core.Core
    requires i < |s.runtime|
  {
    s.(runtime := s.runtime[i := Bump(s.runtime[i], e, blocked)])
  }

  lemma TakesTurn(c: Config, p: Core.Core, r: Core.Core, i: nat, e: Event, counts: bool)
    requires HasMachine(c, p, i)
    requires SameSeat(if counts then TransitionAndCount(c, p, i, e) else Transition(c, p, i, e).core, r, i)
    ensures TookTurn(c, p, r, i, e, counts)
  {
    assert SameSeat(p, p, i);
  }

  lemma TurnFromSameSeat(c: Config, a: Core.Core, b: Core.Core, r: Core.Core, i: nat, e: Event, counts: bool)
    requires SameSeat(a, b, i) && TookTurn(c, b, r, i, e, counts)
    ensures TookTurn(c, a, r, i, e, counts)
  {
    var p: Core.Core :|
      && HasMachine(c, p, i) && SameSeat(b, p, i)
      && SameSeat(if counts then TransitionAndCount(c, p, i, e) else Transition(c, p, i, e).core, r, i);
    hide WellFormed, Transition, TransitionAndCount;
    SeatsChain(a, b, p, i);
  }

  lemma BumpedSeat(a: Core.Core, b: Core.Core, i: nat, e: TriggerEvent, blocked: nat)
    requires SameSeat(a, b, i)
    ensures SameSeat(Bumped(a, i, e, blocked), Bumped(b, i, e, blocked), i)
  {
    hide Bump;
  }

  lemma {:induction false} LoopTurn(c: Config, s: Core.Core, from: nat, e: TriggerEvent, blocked: nat, i: nat)
    requires WellFormed(c, s) && from <= i < |c.machines| && !Addressed(e)
    ensures TookTurn(c, Bumped(s, i, e, blocked), VisitFrom(c, s, from, e, blocked), i, EventOf(e), Counts(e, i))
    decreases |c.machines| - from
  {
    hide ValidConfig, Visit, Transition, TransitionAndCount, Bumped, Bump, Counts, Addressed, TookTurn, SameSeat;
    var s1 := Visit(c, s, from, e, blocked);
    var r := VisitFrom(c, s1, from + 1, e, blocked);
    if from == i {
      OwnTurn(c, s, e, blocked, i);
    } else {
      VisitSeat(c, s, from, e, blocked, i);
      BumpedSeat(s, s1, i, e, blocked);
      LoopTurn(c, s1, from + 1, e, blocked, i);
      TurnFromSameSeat(c, Bumped(s, i, e, blocked), Bumped(s1, i, e, blocked), r, i, EventOf(e), Counts(e, i));
    }
  }

  lemma OwnTurn(c: Config, s: Core.Core, e: TriggerEvent, blocked: nat, i: nat)
    requires HasMachine(c, s, i) && !Addressed(e)
    ensures TookTurn(c, Bumped(s, i, e, blocked), VisitFrom(c, s, i, e, blocked), i, EventOf(e), Counts(e, i))
  {
    hide ValidConfig, Visit, Transition, TransitionAndCount, Bump, Counts, Addressed, TookTurn, SameSeat;
    OwnVisit(c, s, e, blocked, i);
    LoopSeat(c, Visit(c, s, i, e, blocked), i + 1, e, blocked, i);
    TakesTurn(c, Bumped(s, i, e, blocked), VisitFrom(c, s, i, e, blocked), i, EventOf(e), Counts(e, i));
  }

  lemma SharedTurn(c: Config, s: Core.Core, e: TriggerEvent, i: nat)
    requires WellFormed(c, s) && i < |c.machines| && !Addressed(e)
    ensures TookTurn(c, Bumped(GlobalBooks(s, e), i, e, Unblocked(s)), ProcessEvent(c, s, e), i, EventOf(e),
                     Counts(e, i))
  {
    hide ValidConfig, Visit, VisitFrom, TookTurn;
    LoopTurn(c, GlobalBooks(s, e), 0, e, Unblocked(s), i);
  }

  lemma NamedElsewhere(c: Config, s: Core.Core, e: TriggerEvent, i: nat)
    requires WellFormed(c, s) && i < |c.machines| && Addressed(e) && e.machine != i
    ensures var r := ProcessEvent(c, s, e);
            i < |r.runtime| && i < |r.actions| && r.runtime[i] == s.runtime[i] && r.actions[i] == s.actions[i]
  {
    hide ValidConfig, Transition, TransitionAndCount;
    NamedEvent(c, s, e.machine);
  }

  /**
   An event that names no machine: every machine takes one turn on it, from its own runtime and
   slot, with the accounting of the event done. Only its beginner's limit is used by blocking.
   */
  lemma SharedEvent(c: Config, s: Core.Core, e: TriggerEvent, i: nat)
    requires WellFormed(c, s) && i < |c.machines|
    ensures var r := ProcessEvent(c, s, e);
            var rt := s.runtime[i];
            var ongoing := if s.blockingActive && s.blockingStarted < s.now then s.now - s.blockingStarted else 0;
            match e
            case TENormalRecv => TookTurn(c, s, r, i, NormalRecv, false)
            case TEPaddingRecv => TookTurn(c, s, r, i, PaddingRecv, false)
            case TETunnelRecv => TookTurn(c, s, r, i, TunnelRecv, false)
            case TETunnelSent => TookTurn(c, s, r, i, TunnelSent, false)
            case TENormalSent =>
              TookTurn(c, s.(normalSent := s.normalSent + 1,
                             runtime := s.runtime[i := rt.(normalSent := rt.normalSent + 1)]),
                       r, i, NormalSent, false)
            case TEBlockingBegin(who) =>
              TookTurn(c, if s.blockingActive then s else s.(blockingActive := true, blockingStarted := s.now),
                       r, i, BlockingBegin, who == i)
            case TEBlockingEnd =>
              TookTurn(c, s.(blockingDuration := s.blockingDuration + ongoing, blockingActive := false,
                             runtime := s.runtime[i := rt.(blockingDuration := rt.blockingDuration + ongoing)]),
                       r, i, BlockingEnd, false)
            case _ => e.machine != i ==> r.runtime[i] == s.runtime[i] && r.actions[i] == s.actions[i]
  {
    hide ValidConfig, OnlyMoved, Names, ProcessEvent, TookTurn, Transition, TransitionAndCount;
    assert s.runtime[i := s.runtime[i]] == s.runtime;
    if !Addressed(e) {
      SharedTurn(c, s, e, i);
    } else {
      if e.machine != i {
        NamedElsewhere(c, s, e, i);
      }
    }
  }

  // ---------- Calls ----------

  lemma {:induction false} EventsAppend(c: Config, s: Core.Core, events: seq<TriggerEvent>, e: TriggerEvent)
    requires WellFormed(c, s)
    ensures ProcessEvents(c, s, events + [e]) == ProcessEvent(c, ProcessEvents(c, s, events), e)
    decreases |events|
  {
    hide WellFormed, ProcessEvent;
    if events == [] {
      assert (events + [e])[1..] == [];
    } else {
      assert (events + [e])[1..] == events[1..] + [e];
      EventsAppend(c, ProcessEvent(c, s, events[0]), events[1..], e);
    }
  }

  /**
   A call starts from the runtime it finds, without actions and with counter flags unset, takes the
   events in their order, and without a pending signal ends there.
   */
  lemma CallInOrder(c: Config, s: Core.Core, events: seq<TriggerEvent>, e: TriggerEvent, now: int)
    requires WellFormed(c, s)
    ensures var b := BeforeDelivery(c, s, [], now);
            && b == s.(actions := b.actions, zeroedA := false, zeroedB := false, now := now, log := [])
            && |b.actions| == |c.machines| && (forall i :: 0 <= i < |b.actions| ==> b.actions[i] == None)
    ensures BeforeDelivery(c, s, events + [e], now) == ProcessEvent(c, BeforeDelivery(c, s, events, now), e)
    ensures var p := BeforeDelivery(c, s, events, now);
            p.signalPending == None ==> TriggerEvents(c, s, events, now) == p
  {
    hide ValidConfig, ProcessEvent, SignalFrom, Transition;
    EventsAppend(c, Begin(c, s, now), events, e);
  }

  /** The number of occurrences of x among the events. */
  function Times(events: seq<TriggerEvent>, x: TriggerEvent): nat {
    if events == [] then 0 else (if events[0] == x then 1 else 0) + Times(events[1..], x)
  }

  /** The number of padding packets among them, of whatever machine. */
  function PaddingIn(events: seq<TriggerEvent>): nat {
    if events == [] then 0 else (if events[0].TEPaddingSent? then 1 else 0) + PaddingIn(events[1..])
  }

  function AllEvents(calls: seq<Call>): seq<TriggerEvent> {
    if calls == [] then [] else calls[0].events + AllEvents(calls[1..])
  }

  /** From s to r the books of machine i and of all have grown by the packets among the events. */
  ghost predicate Counted(s: Core.Core, r: Core.Core, events: seq<TriggerEvent>, i: nat)
    requires i < |s.runtime| == |r.runtime|
  {
    && r.normalSent == s.normalSent + Times(events, TENormalSent)
    && r.paddingSent == s.paddingSent + PaddingIn(events)
    && r.runtime[i].normalSent == s.runtime[i].normalSent + Times(events, TENormalSent)
    && r.runtime[i].paddingSent == s.runtime[i].paddingSent + Times(events, TEPaddingSent(i))
  }

  lemma {:induction false} EventsCounted(c: Config, s: Core.Core, events: seq<TriggerEvent>, i: nat)
    requires HasMachine(c, s, i)
    ensures Counted(s, ProcessEvents(c, s, events), events, i)
    decreases |events|
  {
    hide ValidConfig, ProcessEvent;
    if events != [] {
      EventBooks(c, s, events[0]);
      assert Reaches(events[0], i) || !Reaches(events[0], i);
      EventsCounted(c, ProcessEvent(c, s, events[0]), events[1..], i);
    }
  }

  lemma CallCounted(c: Config, s: Core.Core, call: Call, i: nat)
    requires HasMachine(c, s, i)
    ensures Counted(s, TriggerEvents(c, s, call.events, call.now), call.events, i)
  {
    hide ValidConfig, ProcessEvents, Deliver;
    var b := Begin(c, s, call.now);
    EventsCounted(c, b, call.events, i);
    DeliverBooks(c, ProcessEvents(c, b, call.events));
  }

  lemma {:induction false} CountsAppend(a: seq<TriggerEvent>, b: seq<TriggerEvent>, x: TriggerEvent)
    ensures Times(a + b, x) == Times(a, x) + Times(b, x)
    ensures PaddingIn(a + b) == PaddingIn(a) + PaddingIn(b)
    decreases |a|
  {
    if a == [] {
      assert a + b == b;
    } else {
      assert (a + b)[1..] == a[1..] + b;
      CountsAppend(a[1..], b, x);
    }
  }

  /** Over a run of any calls the books grow by exactly the packets reported. */
  lemma {:induction false} RunCounted(c: Config, s: Core.Core, calls: seq<Call>, i: nat)
    requires HasMachine(c, s, i)
    ensures Counted(s, Run(c, s, calls), AllEvents(calls), i)
    decreases |calls|
  {
    hide ValidConfig, TriggerEvents;
    if calls != [] {
      CallCounted(c, s, calls[0], i);
      RunCounted(c, TriggerEvents(c, s, calls[0].events, calls[0].now), calls[1..], i);
      CountsAppend(calls[0].events, AllEvents(calls[1..]), TENormalSent);
      CountsAppend(calls[0].events, AllEvents(calls[1..]), TEPaddingSent(i));
    }
  }

  // ---------- Start and return ----------

  /** The limits sampled for the machines before machine i. */
  function SampledBefore(c: Config, i: nat): nat
    requires ValidConfig(c) && i <= |c.machines|
  {
    if i == 0 then 0
    else
      assert ValidMachine(c.machines[i - 1]);
      SampledBefore(c, i - 1) + (if Limited(c.machines[i - 1].states[0].action) then 1 else 0)
  }

  /** Machine i as it starts: in its first state, with a sampled limit if that state has an action. */
  ghost predicate Started(c: Config, rt: Runtime, i: nat)
    requires ValidConfig(c) && i < |c.machines|
  {
    assert ValidMachine(c.machines[i]);
    var action := c.machines[i].states[0].action;
    && rt == Runtime(0, rt.stateLimit, 0, 0, 0, c.start, 1000 * c.machines[i].allowedBlockedMicrosec, 0, 0)
    && (action.None? ==> rt.stateLimit == 0)
    && (action.Some? ==>
          LimitSampled(c.tape, SampledBefore(c, i), action, rt.stateLimit, SampledBefore(c, i + 1)))
  }

  lemma {:induction false} LimitsStart(c: Config, s: Core.Core, from: nat, mi: nat)
    requires HasMachine(c, s, mi) && from <= |c.machines| && s.draws == SampledBefore(c, from)
    requires forall i :: from <= i < |c.machines| ==> s.runtime[i] == StartRuntime(c, i)
    ensures var rt := StartLimits(c, s, from).runtime[mi];
            if mi < from then rt == s.runtime[mi] else Started(c, rt, mi)
    decreases |c.machines| - from
  {
    hide Started;
    if from < |c.machines| {
      var s1 := OneLimitStarts(c, s, from);
      LimitsStart(c, s1, from + 1, mi);
    }
  }

  lemma OneLimitStarts(c: Config, s: Core.Core, from: nat) returns (r: Core.Core)
    requires WellFormed(c, s) && from < |c.machines| && s.draws == SampledBefore(c, from)
    requires s.runtime[from] == StartRuntime(c, from)
    ensures WellFormed(c, r) && StartLimits(c, s, from) == StartLimits(c, r, from + 1)
    ensures r.draws == SampledBefore(c, from + 1) && Started(c, r.runtime[from], from)
    ensures forall i :: 0 <= i < |c.machines| && i != from ==> r.runtime[i] == s.runtime[i]
  {
    hide LimitSampled, SampleLimit, ValidState, InState, StartLimits;
    assert ValidMachine(c.machines[from]);
    var st := c.machines[from].states[0];
    LimitIsSampled(c, s, st);
    r := s;
    if st.action.Some? {
      var (limit, s1) := SampleLimit(c, s, st.action.value);
      SampledCount(c.tape, s.draws, st.action, limit, s1.draws);
      r := WithRuntime(s1, from, s1.runtime[from].(stateLimit := limit));
    }
    StartsOneByOne(c, s, from);
  }

  lemma StartsOneByOne(c: Config, s: Core.Core, from: nat)
    requires WellFormed(c, s) && from < |c.machines|
    ensures ValidMachine(c.machines[from])
    ensures StartLimits(c, s, from)
            == match c.machines[from].states[0].action
               case None => StartLimits(c, s, from + 1)
               case Some(action) =>
                 var (limit, s1) := SampleLimit(c, s, action);
                 StartLimits(c, WithRuntime(s1, from, s1.runtime[from].(stateLimit := limit)), from + 1)
  {
  }

  lemma SampledCount(tape: Tape, k: nat, a: Option<Action>, limit: nat, draws: nat)
    requires LimitSampled(tape, k, a, limit, draws)
    ensures draws == k + (if Limited(a) then 1 else 0)
  {
  }

  /** Every machine starts so, with the draws taken machine by machine. */
  lemma StartsLimited(c: Config, mi: nat)
    requires ValidConfig(c) && mi < |c.machines|
    ensures Started(c, Start(c).runtime[mi], mi)
  {
    hide Started, ValidConfig;
    LimitsStart(c, AtStart(c), 0, mi);
  }

  /** A call returns exactly the actions that are in the slots. */
  lemma {:induction false} ReturnsSlots(actions: seq<Option<TriggerAction>>, a: TriggerAction)
    ensures a in Present(actions) <==> Some(a) in actions
    decreases |actions|
  {
    if actions != [] {
      ReturnsSlots(actions[1..], a);
      assert actions == [actions[0]] + actions[1..];
    }
  }
}
