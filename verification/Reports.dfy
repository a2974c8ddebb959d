/**
 What is reported to the machines adds up over whole runs: a timer that is cleared is reported to
 have ended, an action that is due is performed for its own machine, and all that comes out of
 the tunnel is reported as what it is.
 */
module Reports {
  import opened Prelude
  import opened Machines
  import opened SimEvents
  import opened Queues
  import opened SimState
  import opened Selector
  import opened Scheduler
  import opened Simulator
  import opened Conservation
  import opened SchedulerEffects
  import opened LoopEffects
  import opened SoundRuns
  import opened Timing

  // ---------- Stock ----------

  function Set<T>(slots: seq<Option<T>>, m: nat): nat {
    if m < |slots| && slots[m].Some? then 1 else 0
  }

  /** What is yet to be reported of a kind: the events queued, and a timer or an action still in its slot. */
  function Stock(s: Sim, k: Kind): nat {
    Total(s, k) + InSlot(s, k)
  }

  function InSlot(s: Sim, k: Kind): nat {
    match k
    case TimerEnds(client, machine) => Set(At(s, client).timers, machine)
    case Performs(client, machine) => Set(At(s, client).actions, machine)
    case _ => 0
  }

  /** A kind whose stock only the network and the answers of the framework add to. */
  predicate Stocked(k: Kind) {
    OfReports(k) || k.Padding? || k.PaddingArrives?
  }

  /** Every slot holds an action of its own machine. */
  ghost predicate OwnSlots(s: Sim) {
    OwnActions(s.client.actions) && OwnActions(s.server.actions)
  }

  ghost predicate OwnActions(actions: seq<Option<Scheduled>>) {
    forall m :: 0 <= m < |actions| && actions[m].Some? ==> actions[m].value.action.machine == m
  }

  /** A kind to be counted from s on; what a machine performs, only where slots hold own actions. */
  ghost predicate Counted(s: Sim, k: Kind) {
    Stocked(k) && (k.Performs? ==> OwnSlots(s))
  }

  lemma GainedTally(q: Queues, r: Queues, id: Queue, e: SimEvent, k: Kind)
    requires Gained(q, r, id, e)
    ensures QueueTally(r, k) == QueueTally(q, k) + One(e, k)
  {
    hide Tally, One;
    TallyAppend(Select(q, id).items, e, k);
  }

  /** One endpoint gained an event, and the other none. */
  lemma GainedTotal(s: Sim, r: Sim, client: bool, id: Queue, e: SimEvent, k: Kind)
    requires Gained(At(s, client).queue, At(r, client).queue, id, e) && At(r, !client).queue == At(s, !client).queue
    ensures Total(r, k) == Total(s, k) + One(e, k)
  {
    hide QueueTally, Gained, One;
    GainedTally(At(s, client).queue, At(r, client).queue, id, e, k);
  }

  // ---------- The scheduler ----------

  /** The report of its end takes the place of the timer in the slot. */
  lemma EndedOnce(s: Sim, r: Sim, client: bool, m: nat, target: int, k: Kind)
    requires Stocked(k) && m < |At(s, client).timers| && At(s, client).timers[m].Some?
    requires TimerDone(s, r, client, m, target)
    ensures InSlot(r, k) + One(SimEvent(TETimerEnd(m), target, 0, client, false, false, false), k) == InSlot(s, k)
    ensures OwnSlots(s) ==> OwnSlots(r)
  {
    hide Gained;
  }

  /** A timer that is due leaves its slot, and its end enters the queue. */
  lemma TimerStock(s: Sim, target: int, k: Kind)
    requires Stocked(k) && FireTimer(s, target).Again?
    ensures Stock(FireTimer(s, target).sim, k) == Stock(s, k)
    ensures OwnSlots(s) ==> OwnSlots(FireTimer(s, target).sim)
  {
    hide Total, FireTimer, Gained, One, InSlot, OwnSlots;
    TimerFires(s, target);
    var r := FireTimer(s, target).sim;
    var client: bool, m: nat :| FirstTimer(s, client, m, target) && TimerDone(s, r, client, m, target);
    EndedOnce(s, r, client, m, target, k);
    GainedTotal(s, r, client, Internal, SimEvent(TETimerEnd(m), target, 0, client, false, false, false), k);
  }

  /** Exactly slot m of the actions was cleared, and only this endpoint was touched. */
  ghost predicate ActionCleared(s: Sim, r: Sim, client: bool, m: nat)
    requires m < |At(s, client).actions|
  {
    && At(r, client).actions == At(s, client).actions[m := None] && At(r, client).timers == At(s, client).timers
    && At(r, !client) == At(s, !client)
  }

  /** Exactly one event entered the queue: the report of the action that was in the slot. */
  lemma DoneReports(s: Sim, r: Sim, client: bool, m: nat) returns (e: SimEvent)
    requires m < |At(s, client).actions| && At(s, client).actions[m].Some? && ActionDone(s, r, client, m)
    ensures ActionCleared(s, r, client, m)
    ensures Gained(At(s, client).queue, At(r, client).queue, Internal, e) && e.client == client
    ensures var i := At(s, client).actions[m].value.action.machine;
            e.event == TEPaddingSent(i) || e.event == TEBlockingBegin(i)
  {
    hide Gained;
    var a := At(s, client).actions[m].value;
    match a.action
    case TASendPadding(i, _, bypass, replace) =>
      e := SimEvent(TEPaddingSent(i), a.time, s.lags(s.drawn), client, true, bypass, replace);
    case TABlockOutgoing(i, _, _, _, _) =>
      var lag := s.lags(s.drawn) + s.lags(s.drawn + 1);
      e := SimEvent(TEBlockingBegin(i), a.time + lag, lag, client, false, At(r, client).bypassable, false);
  }

  /** The report takes the place of the action in the slot. */
  lemma ReportedOnce(s: Sim, r: Sim, client: bool, m: nat, e: SimEvent, k: Kind)
    requires Counted(s, k)
    requires m < |At(s, client).actions| && At(s, client).actions[m].Some? && ActionCleared(s, r, client, m)
    requires var i := At(s, client).actions[m].value.action.machine;
             e.client == client && (e.event == TEPaddingSent(i) || e.event == TEBlockingBegin(i))
    ensures InSlot(r, k) + One(e, k) == InSlot(s, k) && Counted(r, k)
  {
  }

  lemma ActionSlotStock(s: Sim, r: Sim, client: bool, m: nat, k: Kind)
    requires Counted(s, k)
    requires m < |At(s, client).actions| && At(s, client).actions[m].Some? && ActionDone(s, r, client, m)
    ensures Stock(r, k) == Stock(s, k) && Counted(r, k)
  {
    hide Total, Gained, One, InSlot, Counted, ActionDone;
    var e := DoneReports(s, r, client, m);
    GainedTotal(s, r, client, Internal, e, k);
    ReportedOnce(s, r, client, m, e, k);
  }

  /** An action that is due leaves its slot, and it is reported of its own machine. */
  lemma ActionStock(s: Sim, target: int, k: Kind)
    requires Counted(s, k) && FireAction(s, target).Again?
    ensures Stock(FireAction(s, target).sim, k) == Stock(s, k) && Counted(FireAction(s, target).sim, k)
  {
    hide Total, FireAction, Gained, NoneDue, Counted;
    ActionFires(s, target);
    var r := FireAction(s, target).sim;
    var client: bool, m: nat :| FirstAction(s, client, m, target) && ActionDone(s, r, client, m);
    ActionSlotStock(s, r, client, m, k);
  }

  lemma EndStock(s: Sim, expire: int, client: bool, k: Kind)
    requires Stocked(k)
    ensures var r := EndBlocking(s, expire, client);
            && (r.Again? || r.Yield?) && Stock(r.sim, k) == Stock(s, k) && (OwnSlots(s) ==> OwnSlots(r.sim))
            && (r.Yield? ==> One(r.event, k) == 0)
  {
    hide Total, EndBlocking, Gained, ExpiryDelay, PushDelay;
    BlockingEnds(s, expire, client);
    var r := EndBlocking(s, expire, client);
    var lag := s.lags(s.drawn);
    if r.Again? {
      GainedTotal(s, r.sim, client, Internal,
                  SimEvent(TEBlockingEnd, expire + lag, lag, client, false, false, false), k);
    } else {
      SameTotal(s, r.sim, k);
    }
  }

  lemma TakeStock(s: Sim, p: Pick, now: int, k: Kind)
    requires Stocked(k) && p.wait.In? && TakeQueued(s, p, now).Yield?
    ensures var r := TakeQueued(s, p, now);
            Stock(r.sim, k) + One(r.event, k) == Stock(s, k) && (OwnSlots(s) ==> OwnSlots(r.sim))
  {
    hide Total, TakeQueued, Lost, Peek;
    TakeTotal(s, p, now, k);
    EventIsTaken(s, p, now);
  }

  lemma DelayStock(s: Sim, k: Kind)
    requires s.pending.items != []
    ensures Stock(PopDelay(s), k) == Stock(s, k) && (OwnSlots(s) ==> OwnSlots(PopDelay(s)))
  {
    hide Total, SoonestDelay;
    PopDelayTotal(s, k);
  }

  lemma AdvanceStock(s: Sim, now: int, k: Kind)
    requires Counted(s, k)
    ensures var r := Advance(s, now);
            && (r.Yield? ==> Stock(r.sim, k) + One(r.event, k) == Stock(s, k) && Counted(r.sim, k))
            && (r.Again? ==> Stock(r.sim, k) == Stock(s, k) && Counted(r.sim, k))
  {
    hide Advance, WaitsAt, Choose, EndBlocking, FireTimer, FireAction, TakeQueued, PopDelay, Stock, OwnSlots;
    RoundByChoice(s, now);
    FireYieldsNothing(s, now);
    var w := WaitsAt(s, now);
    match Choose(w)
    case NoChoice =>
    case TakeDelay => DelayStock(s, k);
    case TakeExpiry => EndStock(s, now + w.unblock.ns, w.unblockClient, k);
    case TakeEvent =>
      TakeNeverAgain(s, w.queue, now);
      if TakeQueued(s, w.queue, now).Yield? {
        TakeStock(s, w.queue, now, k);
      }
    case TakeTimer =>
      if FireTimer(s, now + w.timer.ns).Again? {
        TimerStock(s, now + w.timer.ns, k);
      }
    case TakeAction =>
      if FireAction(s, now + w.action.ns).Again? {
        ActionStock(s, now + w.action.ns, k);
      }
  }

  /**
   Per endpoint and machine, the scheduler keeps the ends of its timer, queued or still to come,
   and its actions, queued as performed or still scheduled: it only takes out what it yields.
   */
  lemma {:induction false} PickStock(s: Sim, now: int, k: Kind)
    requires Counted(s, k)
    ensures var n := PickNext(s, now);
            && (n.Next? ==> Stock(n.sim, k) + One(n.event, k) == Stock(s, k) && Counted(n.sim, k))
            && (n.Idle? ==> Stock(n.sim, k) == Stock(s, k) && Counted(n.sim, k))
    decreases Timers(s), Blockings(s), |s.pending.items|
  {
    hide Advance, Stock, Counted;
    AdvanceStock(s, now, k);
    if Advance(s, now).Again? {
      RoundsShrink(s, now);
      PickStock(Advance(s, now).sim, now, k);
    }
  }

  // ---------- The network ----------

  /** What the network adds to the stock of a kind when it processes an event. */
  function Adds(s: Sim, e: SimEvent, k: Kind): nat {
    match k
    case Padding(client) =>
      if e.client == client && ((e.event.TEPaddingSent? && !Replaces(s, e)) || (e.event == TETunnelSent && e.padding))
      then 1 else 0
    case PaddingArrives(client) => if e.client != client && e.event == TETunnelSent && e.padding then 1 else 0
    case ReportsPadding(client) => if e.client == client && e.event == TETunnelRecv && e.padding then 1 else 0
    case ReportsNormal(client) => if e.client == client && e.event == TETunnelRecv && !e.padding then 1 else 0
    case _ => 0
  }

  /** From s to r no slot changed. */
  ghost predicate SameSlots(s: Sim, r: Sim) {
    && r.client.timers == s.client.timers && r.server.timers == s.server.timers
    && r.client.actions == s.client.actions && r.server.actions == s.server.actions
  }

  lemma SlotsKept(s: Sim, r: Sim, k: Kind)
    requires SameSlots(s, r)
    ensures InSlot(r, k) == InSlot(s, k) && (OwnSlots(s) ==> OwnSlots(r))
  {
  }

  lemma OnlyGainedStock(s: Sim, r: Sim, client: bool, id: Queue, e: SimEvent, k: Kind)
    requires OnlyGained(s, r, client, id, e)
    ensures SameSlots(s, r) && Total(r, k) == Total(s, k) + One(e, k)
  {
    hide Gained, Total, One;
    GainedTotal(s, r, client, id, e, k);
  }

  lemma LostTally(q: Queues, r: Queues, id: Queue, e: SimEvent, k: Kind)
    requires Lost(q, r, id, e)
    ensures QueueTally(r, k) + One(e, k) == QueueTally(q, k)
  {
    hide Tally, One;
    assert multiset(Select(q, id).items) == multiset(Select(r, id).items + [e]);
    SameTally(Select(q, id).items, Select(r, id).items + [e], k);
    TallyAppend(Select(r, id).items, e, k);
  }

  lemma Without(items: seq<SimEvent>, i: nat)
    requires i < |items|
    ensures multiset(items) == multiset(RemoveAt(items, i)) + multiset{items[i]}
  {
    assert items == items[..i] + [items[i]] + items[i + 1..];
  }

  lemma WithoutLast(items: seq<SimEvent>, e: SimEvent)
    requires items != [] && items[|items| - 1] == e
    ensures multiset(items) == multiset(items[..|items| - 1]) + multiset{e} && e in items
  {
    Without(items, |items| - 1);
    assert RemoveAt(items, |items| - 1) == items[..|items| - 1];
  }

  lemma Cancelled(a: multiset<SimEvent>, b: multiset<SimEvent>, e: SimEvent)
    requires a + multiset{e} == b + multiset{e}
    ensures a == b
  {
    forall x
      ensures a[x] == b[x]
    {
      assert (a + multiset{e})[x] == (b + multiset{e})[x];
    }
  }

  lemma {:induction false} SameTally(a: seq<SimEvent>, b: seq<SimEvent>, k: Kind)
    requires multiset(a) == multiset(b)
    ensures Tally(a, k) == Tally(b, k)
    decreases |a|
  {
    hide One, RemoveAt;
    if a == [] {
      assert |multiset(b)| == 0;
    } else {
      var last := a[|a| - 1];
      WithoutLast(a, last);
      assert last in multiset(a) && last in multiset(b);
      var i :| 0 <= i < |b| && b[i] == last;
      Without(b, i);
      TallyRemove(b, i, k);
      Cancelled(multiset(a[..|a| - 1]), multiset(RemoveAt(b, i)), last);
      SameTally(a[..|a| - 1], RemoveAt(b, i), k);
    }
  }

  lemma LetThroughStock(s: Sim, r: Sim, client: bool, now: int, k: Kind)
    requires Stocked(k) && LetThrough(s, r, client, now)
    ensures SameSlots(s, r) && Total(r, k) == Total(s, k)
  {
    hide Total, QueueTally, Lost, Gained, DelayOnReplace, PushDelay;
    var ep, ep' := At(s, client), At(r, client);
    var rest: Queues, id: Queue, held: SimEvent :|
      && held.event == TETunnelSent && held.client == client && !held.padding
      && Lost(ep.queue, rest, id, held) && (id == Blocking || (id == Bypassable && !ep.bypassable))
      && ep' == ep.(queue := ep'.queue) && At(r, !client) == At(s, !client)
      && Gained(rest, ep'.queue, Bypassable, held.(bypass := true, replace := false))
      && OwesDelay(s, r, DelayOnReplace(ep.(queue := rest), now, held.(bypass := true, replace := false)), now, client)
      && r.drawn == s.drawn;
    LostTally(ep.queue, rest, id, held, k);
    GainedTally(rest, ep'.queue, Bypassable, held.(bypass := true, replace := false), k);
    SideSums(s, r, client, k);
  }

  lemma SideSums(s: Sim, r: Sim, client: bool, k: Kind)
    requires At(r, !client) == At(s, !client)
    ensures Total(r, k) + QueueTally(At(s, client).queue, k) == Total(s, k) + QueueTally(At(r, client).queue, k)
  {
    hide QueueTally;
  }

  lemma PaddingStock(s: Sim, e: SimEvent, now: int, k: Kind)
    requires Stocked(k) && e.event.TEPaddingSent?
    ensures var r := NetworkStack(s, e, now).0;
            SameSlots(s, r) && Total(r, k) == Total(s, k) + Adds(s, e, k)
  {
    hide Total, NetworkStack, OnlyGained, LetThrough, Replaces;
    PaddingIsSent(s, e, now);
    var r := NetworkStack(s, e, now).0;
    if !Replaces(s, e) {
      OnlyGainedStock(s, r, e.client, if e.bypass then Bypassable else Blocking,
                      SimEvent(TETunnelSent, e.time, e.delay, e.client, true, e.bypass, e.replace), k);
    } else if e.bypass {
      LetThroughStock(s, r, e.client, now, k);
    }
  }

  lemma EnterStock(s: Sim, e: SimEvent, now: int, k: Kind)
    requires Stocked(k) && e.event == TETunnelSent
    ensures var r := NetworkStack(s, e, now).0;
            SameSlots(s, r) && Total(r, k) == Total(s, k) + Adds(s, e, k)
  {
    hide Total, NetworkStack, Gained, PushDelay, AddToWindow, Congestion, HeldBy, TraceBy;
    PacketEntersTunnel(s, e, now);
    var r := NetworkStack(s, e, now).0;
    var items := At(r, !e.client).queue.internal.items;
    var extra := Congestion(s.net, |AddToWindow(At(s, e.client).window, now, s.net.window)|);
    var way := s.net.delay + extra + s.lags(s.drawn);
    GainedTotal(s, r, !e.client, Internal,
                SimEvent(TETunnelRecv, if e.padding then e.time + e.delay + way else Max(e.time - e.delay + way, now),
                         s.lags(s.drawn), !e.client, e.padding, false, false), k);
  }

  /** An event that the network processes adds to the stock of each kind exactly what Adds says. */
  lemma NetworkStock(s: Sim, e: SimEvent, now: int, k: Kind)
    requires Stocked(k) && (e.event == TENormalSent ==> !e.padding)
    ensures var r := NetworkStack(s, e, now).0;
            Stock(r, k) == Stock(s, k) + Adds(s, e, k) && (OwnSlots(s) ==> OwnSlots(r))
  {
    hide Total, NetworkStack, OnlyGained, Replaces, OwnSlots, InSlot;
    var r := NetworkStack(s, e, now).0;
    PacketGoesOn(s, e, now);
    match e.event {
      case TEPaddingSent(_) =>
        PaddingStock(s, e, now, k);
      case TETunnelSent =>
        EnterStock(s, e, now, k);
      case TENormalSent =>
        OnlyGainedStock(s, r, e.client, Blocking,
                        SimEvent(TETunnelSent, e.time, e.delay, e.client, false, false, false), k);
      case TETunnelRecv =>
        OnlyGainedStock(s, r, e.client, Internal,
                        SimEvent(if e.padding then TEPaddingRecv else TENormalRecv, e.time, e.delay, e.client,
                                 e.padding, false, false), k);
      case _ =>
    }
    SlotsKept(s, r, k);
  }

  // ---------- The framework's answers ----------

  /** An answer from k on sets the timer of machine m. */
  ghost predicate TimerSet(timers: seq<Option<int>>, actions: seq<TriggerAction>, k: nat, m: nat, now: int)
    requires OnePerMachine(actions, |timers|)
  {
    m < |timers| && exists i :: k <= i < |actions| && actions[i].machine == m && SetsTimer(timers[m], actions[i], now)
  }

  lemma {:induction false} TallyPrepend(e: SimEvent, items: seq<SimEvent>, k: Kind)
    ensures Tally([e] + items, k) == One(e, k) + Tally(items, k)
    decreases |items|
  {
    if items == [] {
      assert ([e] + items)[..0] == [];
    } else {
      assert ([e] + items)[..|items|] == [e] + items[..|items| - 1];
      TallyPrepend(e, items[..|items| - 1], k);
    }
  }

  lemma {:induction false} TallyConcat(a: seq<SimEvent>, b: seq<SimEvent>, k: Kind)
    ensures Tally(a + b, k) == Tally(a, k) + Tally(b, k)
    decreases |b|
  {
    if b == [] {
      assert a + b == a;
    } else {
      assert (a + b)[..|a + b| - 1] == a + b[..|b| - 1];
      TallyConcat(a, b[..|b| - 1], k);
    }
  }

  /** The beginnings queued: one for the machine's timer if it is set, and nothing of another kind. */
  lemma {:induction false} BeginsTally(timers: seq<Option<int>>, client: bool, actions: seq<TriggerAction>, i: nat,
                                       now: int, k: Kind)
    requires Stocked(k) && OnePerMachine(actions, |timers|) && i <= |actions|
    ensures Tally(Begins(timers, client, actions, i, now), k)
            == if k.TimerBegins? && k.client == client && TimerSet(timers, actions, i, k.machine, now) then 1 else 0
    decreases |actions| - i
  {
    hide SetsTimer;
    if i < |actions| {
      BeginsTally(timers, client, actions, i + 1, now, k);
      var m := actions[i].machine;
      var e := SimEvent(TETimerBegin(m), now, 0, client, false, false, false);
      var rest := Begins(timers, client, actions, i + 1, now);
      if SetsTimer(timers[m], actions[i], now) {
        TallyPrepend(e, rest, k);
      } else {
        assert Begins(timers, client, actions, i, now) == rest;
      }
      SetHereOrLater(timers, actions, i, if k.TimerBegins? then k.machine else 0, now);
    }
  }

  lemma SetHereOrLater(timers: seq<Option<int>>, actions: seq<TriggerAction>, i: nat, m: nat, now: int)
    requires OnePerMachine(actions, |timers|) && i < |actions|
    ensures TimerSet(timers, actions, i, m, now)
            <==> (m == actions[i].machine && SetsTimer(timers[m], actions[i], now))
                 || TimerSet(timers, actions, i + 1, m, now)
    ensures m == actions[i].machine ==> !TimerSet(timers, actions, i + 1, m, now)
  {
    hide SetsTimer;
  }

  /** The answers ask machine m to pad or to block. */
  predicate Orders(actions: seq<TriggerAction>, m: nat) {
    exists i :: 0 <= i < |actions| && actions[i].machine == m && Schedulable(actions[i])
  }

  /**
   The answers add to no stock but that of slots: a timer that is set begins once, and a slot of a
   machine holds a timer or an action only if it held one or was given one.
   */
  lemma AnswersStock(s: Sim, client: bool, now: int, actions: seq<TriggerAction>, k: Kind)
    requires Stocked(k) && Fits(At(s, client), actions)
    ensures var r := TriggerUpdate(s, client, now, actions);
            && Total(r, k) == Total(s, k) + (if k.TimerBegins? && k.client == client
                                               && TimerSet(At(s, client).timers, actions, 0, k.machine, now)
                                             then 1 else 0)
            && (k.TimerEnds? && InSlot(r, k) > InSlot(s, k) ==>
                  k.client == client && TimerSet(At(s, client).timers, actions, 0, k.machine, now))
            && (k.Performs? && InSlot(r, k) > InSlot(s, k) ==> k.client == client && Orders(actions, k.machine))
            && (OwnSlots(s) ==> OwnSlots(r))
  {
    hide TriggerUpdate, SlotsAnswered, Unanswered, SetsTimer, Tally, TimerSet, Stocked, Total, Begins, OwnActions;
    AnswersPerformed(s, client, now, actions);
    var r := TriggerUpdate(s, client, now, actions);
    var ep, ep' := At(s, client), At(r, client);
    BeginsTally(ep.timers, client, actions, 0, now, k);
    TallyConcat(ep.queue.internal.items, Begins(ep.timers, client, actions, 0, now), k);
    QueueGrows(ep.queue, ep'.queue, k);
    SideSums(s, r, client, k);
    OwnAnswers(ep, ep', client, actions, now, s.lags(s.drawn));
    if k.TimerEnds? && k.client == client && InSlot(r, k) > InSlot(s, k) {
      SlotFilled(ep, ep', client, actions, now, s.lags(s.drawn), k.machine);
    }
    if k.Performs? && k.client == client && InSlot(r, k) > InSlot(s, k) {
      ActionOrdered(ep, ep', client, actions, now, s.lags(s.drawn), k.machine);
    }
  }

  lemma QueueGrows(q: Queues, r: Queues, k: Kind)
    requires r == q.(internal := r.internal)
    ensures QueueTally(r, k) - QueueTally(q, k) == Tally(r.internal.items, k) - Tally(q.internal.items, k)
  {
    hide Tally;
  }

  /** A slot that held no timer and holds one now was set by the answer for its machine. */
  lemma SlotFilled(ep: Endpoint, ep': Endpoint, client: bool, actions: seq<TriggerAction>, now: int, lag: nat, m: nat)
    requires Fits(ep, actions) && AllAnswered(ep, ep', client, actions, 0, now, lag)
    requires Set(ep'.timers, m) > Set(ep.timers, m)
    ensures TimerSet(ep.timers, actions, 0, m, now)
  {
    assert !Unanswered(actions, 0, m);
    var i :| 0 <= i < |actions| && actions[i].machine == m;
  }

  lemma ActionOrdered(ep: Endpoint, ep': Endpoint, client: bool, actions: seq<TriggerAction>, now: int, lag: nat,
                      m: nat)
    requires Fits(ep, actions) && AllAnswered(ep, ep', client, actions, 0, now, lag)
    requires Set(ep'.actions, m) > Set(ep.actions, m)
    ensures Orders(actions, m)
  {
    assert !Unanswered(actions, 0, m);
    var i :| 0 <= i < |actions| && actions[i].machine == m;
  }

  lemma OwnAnswers(ep: Endpoint, ep': Endpoint, client: bool, actions: seq<TriggerAction>, now: int, lag: nat)
    requires Fits(ep, actions) && AllAnswered(ep, ep', client, actions, 0, now, lag)
    ensures OwnActions(ep.actions) ==> OwnActions(ep'.actions)
  {
    if OwnActions(ep.actions) {
      forall m | 0 <= m < |ep'.actions| && ep'.actions[m].Some?
        ensures ep'.actions[m].value.action.machine == m
      {
        if !Unanswered(actions, 0, m) {
          var i :| 0 <= i < |actions| && actions[i].machine == m;
          AnsweredOwn(ep.actions[m], ep.timers[m], ep'.actions[m], ep'.timers[m], actions[i], now, lag);
        }
      }
    }
  }

  lemma AnsweredOwn(action: Option<Scheduled>, timer: Option<int>, action': Option<Scheduled>, timer': Option<int>,
                    a: TriggerAction, now: int, lag: nat)
    requires SlotsAnswered(action, timer, action', timer', a, now, lag)
    ensures action'.Some? ==> action' == action || action'.value.action == a
  {
  }

  // ---------- Iterations and runs ----------

  /** Stock and what the loop has processed, of a kind. */
  function Ever(l: Loop, k: Kind): nat {
    Stock(l.sim, k) + Tally(l.done, k)
  }

  /** Whether the next iteration sends padding of that endpoint into the tunnel's queue. */
  function Padded(l: Loop, client: bool): nat {
    match PickNext(l.sim, l.now)
    case Next(s, e) => if e.client == client && e.event.TEPaddingSent? && !Replaces(s, e) then 1 else 0
    case _ => 0
  }

  /** Padding is in the queue, in the tunnel, or has come out at the other endpoint. */
  function PaddingOf(l: Loop, client: bool): nat {
    Total(l.sim, Padding(client)) + Tally(l.done, PaddingArrives(!client))
  }

  /** Reports of padding and of normal packets at an endpoint, less what came out of the tunnel there. */
  function PaddingUnreported(l: Loop, client: bool): int {
    Ever(l, ReportsPadding(client)) - Tally(l.done, PaddingArrives(client))
  }

  function NormalUnreported(l: Loop, client: bool): int {
    Ever(l, ReportsNormal(client)) - Tally(l.done, Arrives(!client))
  }

  /** Timers that have ended or still may, less those that began. */
  function TimersLeft(l: Loop, client: bool, m: nat): int {
    Ever(l, TimerEnds(client, m)) - Ever(l, TimerBegins(client, m))
  }

  lemma ProcessStock(args: Args, l: Loop, s: Sim, e: SimEvent, a: Answer, k: Kind)
    requires Stocked(k) && Lawful(NetworkStack(s, e, e.time).0, a) && (e.event == TENormalSent ==> !e.padding)
    requires !k.TimerEnds? && !k.TimerBegins? && !k.Performs?
    ensures Total(Process(args, l, s, e, a).sim, k) == Total(s, k) + Adds(s, e, k)
  {
    hide Total, NetworkStack, TriggerUpdate, Adds, OwnSlots;
    NetworkStock(s, e, e.time, k);
    AnswersStock(NetworkStack(s, e, e.time).0, e.client, e.time, For(a, e.client), k);
  }

  lemma ProcessTimers(args: Args, l: Loop, s: Sim, e: SimEvent, a: Answer, client: bool, m: nat)
    requires Lawful(NetworkStack(s, e, e.time).0, a) && (e.event == TENormalSent ==> !e.padding)
    ensures var r := Process(args, l, s, e, a).sim;
            Stock(r, TimerEnds(client, m)) - Stock(r, TimerBegins(client, m))
            <= Stock(s, TimerEnds(client, m)) - Stock(s, TimerBegins(client, m))
  {
    hide Total, NetworkStack, TriggerUpdate, OwnSlots, TimerSet, Set;
    NetworkStock(s, e, e.time, TimerEnds(client, m));
    NetworkStock(s, e, e.time, TimerBegins(client, m));
    var s1 := NetworkStack(s, e, e.time).0;
    AnswersStock(s1, e.client, e.time, For(a, e.client), TimerEnds(client, m));
    AnswersStock(s1, e.client, e.time, For(a, e.client), TimerBegins(client, m));
    SlotIsOne(s1, TimerEnds(client, m));
    SlotIsOne(Process(args, l, s, e, a).sim, TimerEnds(client, m));
  }

  lemma SlotIsOne(s: Sim, k: Kind)
    ensures InSlot(s, k) <= 1
  {
  }

  /** What the next iteration adds to a kind. */
  function Added(l: Loop, k: Kind): nat {
    match PickNext(l.sim, l.now)
    case Next(s, e) => Adds(s, e, k)
    case _ => 0
  }

  /** What the next iteration processes of a kind. */
  function Processed(l: Loop, k: Kind): nat {
    match PickNext(l.sim, l.now)
    case Next(_, e) => One(e, k)
    case _ => 0
  }

  lemma DoneGrows(args: Args, l: Loop, a: Answer, k: Kind)
    requires SoundLoop(l) && Lawful(l.sim, a)
    ensures !Iterate(args, l, a).Crashed?
    ensures Tally(Iterate(args, l, a).loop.done, k) == Tally(l.done, k) + Processed(l, k)
  {
    hide PickNext, NetworkStack, TriggerUpdate, NoNormalPackets, SoundLoop, Tally, One, Traced;
    IterateSound(args, l, a);
    IterationDone(args, l, a);
    var p := PickNext(l.sim, l.now);
    if p.Next? {
      TallyAppend(l.done, p.event, k);
    }
  }

  /** The event that is picked leaves the stock of a kind, and what the network adds enters it. */
  lemma IterateStock(args: Args, l: Loop, a: Answer, k: Kind)
    requires SoundLoop(l) && Lawful(l.sim, a)
    requires k.Padding? || k.ReportsPadding? || k.ReportsNormal?
    ensures !Iterate(args, l, a).Crashed?
    ensures Total(Iterate(args, l, a).loop.sim, k) + Processed(l, k) == Total(l.sim, k) + Added(l, k)
  {
    hide PickNext, Process, NetworkStack, NoNormal, SoundLoop, Total, Adds, One, OwnSlots;
    IterateSound(args, l, a);
    PickKeepsMachines(l.sim, l.now);
    SoundNow(l);
    YieldedIsPlain(l.sim, l.now);
    PickStock(l.sim, l.now, k);
    var p := PickNext(l.sim, l.now);
    if p.Next? {
      NetworkKeepsMachines(p.sim, p.event, p.event.time);
      ProcessStock(args, l, p.sim, p.event, a, k);
    }
  }

  lemma IterateTimers(args: Args, l: Loop, a: Answer, client: bool, m: nat)
    requires SoundLoop(l) && Lawful(l.sim, a)
    ensures !Iterate(args, l, a).Crashed?
    ensures TimersLeft(Iterate(args, l, a).loop, client, m) <= TimersLeft(l, client, m)
  {
    hide PickNext, Process, NetworkStack, NoNormal, SoundLoop, Stock, One, OwnSlots, Tally;
    IterateSound(args, l, a);
    PickKeepsMachines(l.sim, l.now);
    SoundNow(l);
    YieldedIsPlain(l.sim, l.now);
    PickStock(l.sim, l.now, TimerEnds(client, m));
    PickStock(l.sim, l.now, TimerBegins(client, m));
    DoneGrows(args, l, a, TimerEnds(client, m));
    DoneGrows(args, l, a, TimerBegins(client, m));
    var p := PickNext(l.sim, l.now);
    if p.Next? {
      NetworkKeepsMachines(p.sim, p.event, p.event.time);
      ProcessTimers(args, l, p.sim, p.event, a, client, m);
    }
  }

  /** A packet goes one stage on: into the tunnel, out of it, and from there into a report. */
  lemma StageByStage(l: Loop, client: bool)
    ensures Added(l, Padding(client)) + Processed(l, PaddingArrives(!client))
            == Processed(l, Padding(client)) + Padded(l, client)
    ensures Added(l, ReportsPadding(client)) == Processed(l, PaddingArrives(client))
    ensures Added(l, ReportsNormal(client)) == Processed(l, Arrives(!client))
  {
    hide PickNext, Replaces;
  }

  /** One iteration: padding enters as Padded says, all that arrives is reported, no timer ends that did not begin. */
  ghost predicate AddsUp(l: Loop, l': Loop, client: bool, m: nat, padded: nat) {
    && PaddingOf(l', client) == PaddingOf(l, client) + padded
    && PaddingUnreported(l', client) == PaddingUnreported(l, client)
    && NormalUnreported(l', client) == NormalUnreported(l, client)
    && TimersLeft(l', client, m) <= TimersLeft(l, client, m)
  }

  lemma IterateAddsUp(args: Args, l: Loop, a: Answer, client: bool, m: nat)
    requires SoundLoop(l) && Lawful(l.sim, a)
    ensures !Iterate(args, l, a).Crashed? && AddsUp(l, Iterate(args, l, a).loop, client, m, Padded(l, client))
  {
    hide Iterate, SoundLoop, Total, Tally, Added, Processed, Padded, TimersLeft;
    IterateStock(args, l, a, Padding(client));
    IterateStock(args, l, a, ReportsPadding(client));
    IterateStock(args, l, a, ReportsNormal(client));
    DoneGrows(args, l, a, PaddingArrives(!client));
    DoneGrows(args, l, a, PaddingArrives(client));
    DoneGrows(args, l, a, Arrives(!client));
    DoneGrows(args, l, a, ReportsPadding(client));
    DoneGrows(args, l, a, ReportsNormal(client));
    StageByStage(l, client);
    IterateTimers(args, l, a, client, m);
  }

  /** The padding packets of that endpoint that were queued for the tunnel in the whole run. */
  function PaddingQueued(args: Args, l: Loop, script: seq<Answer>, client: bool): nat
    requires forall i :: 0 <= i < |script| ==> Lawful(l.sim, script[i])
    decreases |script|
  {
    if script == [] then 0
    else
      var r := Iterate(args, l, script[0]);
      IterateKeepsMachines(args, l, script[0]);
      Padded(l, client)
      + (if r.Going? then LawfulStays(l.sim, r.loop.sim, script); PaddingQueued(args, r.loop, script[1..], client)
         else 0)
  }

  lemma {:induction false} RunAddsUp(args: Args, l: Loop, script: seq<Answer>, client: bool, m: nat)
    requires SoundLoop(l) && forall i :: 0 <= i < |script| ==> Lawful(l.sim, script[i])
    ensures !Run(args, l, script).Crashed?
    ensures AddsUp(l, Run(args, l, script).loop, client, m, PaddingQueued(args, l, script, client))
    decreases |script|
  {
    hide Iterate, SoundLoop, Padded, PaddingOf, PaddingUnreported, NormalUnreported, TimersLeft;
    if script != [] {
      IterateSound(args, l, script[0]);
      IterateAddsUp(args, l, script[0], client, m);
      IterateKeepsMachines(args, l, script[0]);
      var r := Iterate(args, l, script[0]);
      if r.Going? {
        LawfulStays(l.sim, r.loop.sim, script);
        RunAddsUp(args, r.loop, script[1..], client, m);
      }
    }
  }

  /** In a fresh loop nothing is on its way but the trace, and nothing is reported. */
  lemma FreshStock(l: Loop, k: Kind)
    requires Fresh(l) && Stocked(k)
    ensures Total(l.sim, k) == 0
  {
    assert Typed(l.sim.client.queue, true) && Typed(l.sim.server.queue, false);
    TallyNone(l.sim.client.queue.base.items, k);
    TallyNone(l.sim.server.queue.base.items, k);
    hide Typed, Sound, One;
  }

  lemma FreshAddsUp(l: Loop, client: bool, m: nat)
    requires Fresh(l)
    ensures SoundLoop(l)
    ensures PaddingOf(l, client) == 0 && PaddingUnreported(l, client) == 0 && NormalUnreported(l, client) == 0
    ensures TimersLeft(l, client, m) == Set(At(l.sim, client).timers, m)
  {
    FreshStock(l, Padding(client));
    FreshStock(l, ReportsPadding(client));
    FreshStock(l, ReportsNormal(client));
    FreshStock(l, TimerEnds(client, m));
    FreshStock(l, TimerBegins(client, m));
    hide Total, Set, SoundLoop;
  }

  /**
   In every run from a fresh start, for each direction: the padding waiting for the tunnel, in it, and
   come out of it adds up to the padding that was queued for it. Whatever came out is reported, or
   queued to be reported, once: padding as padding and trace packets as normal packets.
   */
  lemma PaddingAddsUp(args: Args, l: Loop, script: seq<Answer>, client: bool)
    requires Fresh(l) && forall i :: 0 <= i < |script| ==> Lawful(l.sim, script[i])
    ensures var r := Run(args, l, script);
            && !r.Crashed?
            && Total(r.loop.sim, Padding(client)) + Tally(r.loop.done, PaddingArrives(!client))
               == PaddingQueued(args, l, script, client)
            && Total(r.loop.sim, ReportsPadding(client)) + Tally(r.loop.done, ReportsPadding(client))
               == Tally(r.loop.done, PaddingArrives(client))
            && Total(r.loop.sim, ReportsNormal(client)) + Tally(r.loop.done, ReportsNormal(client))
               == Tally(r.loop.done, Arrives(!client))
  {
    hide Run, Total, Tally, PaddingQueued, TimersLeft, SoundLoop, Fresh;
    FreshAddsUp(l, client, 0);
    RunAddsUp(args, l, script, client, 0);
  }

  /**
   In every run from a fresh start, a machine is told no more often that its timer ended than that it
   began, but for a timer set at the start; timers still set or about to be reported included.
   */
  lemma TimersEndOnce(args: Args, l: Loop, script: seq<Answer>, client: bool, m: nat)
    requires Fresh(l) && forall i :: 0 <= i < |script| ==> Lawful(l.sim, script[i])
    ensures var r := Run(args, l, script);
            && !r.Crashed?
            && Tally(r.loop.done, TimerEnds(client, m)) + Total(r.loop.sim, TimerEnds(client, m))
               + Set(At(r.loop.sim, client).timers, m)
               <= Tally(r.loop.done, TimerBegins(client, m)) + Total(r.loop.sim, TimerBegins(client, m))
                  + Set(At(l.sim, client).timers, m)
  {
    hide Run, Total, Tally, PaddingQueued, Set, SoundLoop, PaddingOf, PaddingUnreported, NormalUnreported, Fresh;
    FreshAddsUp(l, client, m);
    RunAddsUp(args, l, script, client, m);
  }

  // ---------- Actions are performed once ----------

  /** Whether the next iteration's answer asks that machine to pad or to block. */
  function Ordered(l: Loop, a: Answer, client: bool, m: nat): nat {
    match PickNext(l.sim, l.now)
    case Next(_, e) => if e.client == client && Orders(For(a, client), m) then 1 else 0
    case _ => 0
  }

  lemma IterateOrders(args: Args, l: Loop, a: Answer, client: bool, m: nat)
    requires SoundLoop(l) && Lawful(l.sim, a) && OwnSlots(l.sim)
    ensures !Iterate(args, l, a).Crashed?
    ensures var r := Iterate(args, l, a).loop;
            OwnSlots(r.sim) && Ever(r, Performs(client, m)) <= Ever(l, Performs(client, m)) + Ordered(l, a, client, m)
  {
    hide PickNext, NetworkStack, TriggerUpdate, NoNormal, SoundLoop, Total, InSlot, One, OwnSlots, Tally, Orders,
         Traced;
    IterateSound(args, l, a);
    PickKeepsMachines(l.sim, l.now);
    SoundNow(l);
    YieldedIsPlain(l.sim, l.now);
    var k := Performs(client, m);
    PickStock(l.sim, l.now, k);
    DoneGrows(args, l, a, k);
    var p := PickNext(l.sim, l.now);
    if p.Next? {
      NetworkKeepsMachines(p.sim, p.event, p.event.time);
      var s1 := NetworkStack(p.sim, p.event, p.event.time).0;
      NetworkStock(p.sim, p.event, p.event.time, k);
      AnswersStock(s1, p.event.client, p.event.time, For(a, p.event.client), k);
      SlotIsOne(TriggerUpdate(s1, p.event.client, p.event.time, For(a, p.event.client)), k);
    }
  }

  /** The answers of the whole run that asked that machine to pad or to block. */
  function AllOrdered(args: Args, l: Loop, script: seq<Answer>, client: bool, m: nat): nat
    requires forall i :: 0 <= i < |script| ==> Lawful(l.sim, script[i])
    decreases |script|
  {
    if script == [] then 0
    else
      var r := Iterate(args, l, script[0]);
      IterateKeepsMachines(args, l, script[0]);
      Ordered(l, script[0], client, m)
      + (if r.Going? then LawfulStays(l.sim, r.loop.sim, script); AllOrdered(args, r.loop, script[1..], client, m)
         else 0)
  }

  /**
   In every run from slots that hold own actions, what a machine is told that it performed, and what
   it is yet to perform, is no more than what the framework asked of it, but for an action at the start.
   */
  lemma {:induction false} ActionsPerformedOnce(args: Args, l: Loop, script: seq<Answer>, client: bool, m: nat)
    requires SoundLoop(l) && OwnSlots(l.sim) && forall i :: 0 <= i < |script| ==> Lawful(l.sim, script[i])
    ensures !Run(args, l, script).Crashed?
    ensures var r := Run(args, l, script).loop;
            && OwnSlots(r.sim)
            && Ever(r, Performs(client, m)) <= Ever(l, Performs(client, m)) + AllOrdered(args, l, script, client, m)
    decreases |script|
  {
    hide Iterate, SoundLoop, Ordered, Ever, OwnSlots;
    if script != [] {
      IterateSound(args, l, script[0]);
      IterateOrders(args, l, script[0], client, m);
      IterateKeepsMachines(args, l, script[0]);
      var r := Iterate(args, l, script[0]);
      if r.Going? {
        LawfulStays(l.sim, r.loop.sim, script);
        ActionsPerformedOnce(args, r.loop, script[1..], client, m);
      }
    }
  }
}
