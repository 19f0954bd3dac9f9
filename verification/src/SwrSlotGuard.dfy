/**
What the slot comparison of a refresh is worth. It narrows the time in which loads can get out of
order to that between the comparison and the insert; and in a run in which no refresh's slot
changed there, what slots receive and what calls answer is from ever later loads.
*/
module SwrSlotGuard {
  import opened Wrappers
  import opened SwrModel
  import opened SwrInvariants
  import opened SwrFlags
  import opened SwrAccounting
  import opened SwrSafety
  import opened SwrMonotone
  import opened SwrRuns
  import opened SwrHistory

  // ---- An insert over the refresh's own entry. ----

  /** If `ev` is the insert of a refresh, the slot holds the entry the refresh started from. */
  ghost predicate FindsOwn<K, V>(s: State<K, V>, ev: Event<K, V>) {
    WritesBack(s, ev) ==> Slot(s, s.refreshes[ev.task].key) == Some(s.refreshes[ev.task].from)
  }

  /** A key with a load in flight has an empty slot. */
  ghost predicate Vacant<K, V>(s: State<K, V>) {
    forall k :: k in s.active ==> k !in s.slots
  }

  lemma VacantKept<K, V>(w: World<K, V>, s: State<K, V>, ev: Event<K, V>)
    requires Shape(w, s) && Vacant(s) && Enabled(s, ev) && FindsOwn(s, ev)
    ensures Vacant(Apply(w, s, ev))
  {
    hide Shape;
    match ev
    case Advance(g, step) =>
      hide CallDo, CallCan, RefreshDo, RefreshCan;
      VacantCallStep(w, s, g, step);
    case Refreshing(r, step) =>
      hide CallDo, CallCan;
      RefreshFrame(w, s, r, step);
      if !step.WriteBack? { hide RefreshDo; }
    case _ => hide CallDo, CallCan, RefreshDo, RefreshCan;
  }

  lemma VacantCallStep<K, V>(w: World<K, V>, s: State<K, V>, g: nat, step: CallStep)
    requires CallCan(s, g, step) && Vacant(s)
    ensures Vacant(CallDo(w, s, g, step))
  {
    LoadFrame(w, s, g, step);
    if !Loads(step) { hide CallDo, CallCan; }
  }

  /** Such an insert is in turn: the refresh loaded after its entry existed, and no load is in flight. */
  lemma OwnIsInTurn<K, V>(w: World<K, V>, s: State<K, V>, ev: Event<K, V>)
    requires Shape(w, s) && SlotsMono(s) && Vacant(s) && FindsOwn(s, ev)
    ensures !OutOfTurn(s, ev)
  {
    if WritesBack(s, ev) {
      var rf := s.refreshes[ev.task];
      RefreshKnown(w, s, ev.task);
      EntryKnown(w, s, rf.from);
      assert SlotMono(s, rf.key);
    }
  }

  /** Every event whose insert, if it is one, finds the refresh's own entry keeps loads in order. */
  lemma OwnKeepsOrder<K, V>(w: World<K, V>, s: State<K, V>, ev: Event<K, V>)
    requires Shape(w, s) && Monotone(s) && Vacant(s) && Enabled(s, ev) && FindsOwn(s, ev)
    ensures Monotone(Apply(w, s, ev)) && Vacant(Apply(w, s, ev)) && InSuccession(s, Apply(w, s, ev))
  {
    OwnIsInTurn(w, s, ev);
    VacantKept(w, s, ev);
    hide Shape, Monotone, Vacant, FindsOwn, OutOfTurn, Apply, Enabled, Succeeds;
    MonotoneKept(w, s, ev);
    forall k | k in Apply(w, s, ev).slots ensures Succeeds(s, Apply(w, s, ev), k) {
      SlotSuccession(w, s, ev, k);
    }
  }

  ghost predicate AllFindOwn<K, V>(states: seq<State<K, V>>, events: seq<Event<K, V>>, n: nat)
    requires n <= |events| && n <= |states|
  {
    forall i :: 0 <= i < n ==> FindsOwn(states[i], events[i])
  }

  /** If every insert among the first `n` events found its own entry, every one was in turn. */
  lemma {:induction false} OwnInsertsAreInTurn<K, V>(
      w: World<K, V>, states: seq<State<K, V>>, events: seq<Event<K, V>>, n: nat)
    requires IsRun(w, states, events) && n < |states| && AllFindOwn(states, events, n)
    ensures AllInTurn(states, events, n) && Monotone(states[n]) && Vacant(states[n])
  {
    hide Shape, Flags, Accounts, Current, Monotone, Vacant, FindsOwn, OutOfTurn, Apply, Enabled;
    if n == 0 {
      InitMonotone<K, V>();
      InitVacant<K, V>();
    } else {
      OwnInsertsAreInTurn(w, states, events, n - 1);
      EveryState(w, states, events, n - 1);
      var s, ev := states[n - 1], events[n - 1];
      assert FindsOwn(s, ev);
      OrderedSlots(s);
      OwnIsInTurn(w, s, ev);
      OwnKeepsOrder(w, s, ev);
    }
  }

  lemma InitVacant<K, V>()
    ensures var s: State<K, V> := Init(); Vacant(s)
  {
  }

  lemma OrderedSlots<K, V>(s: State<K, V>)
    requires Monotone(s)
    ensures SlotsMono(s)
  {
  }

  // ---- The same by events. ----

  /** The insert at `i` is one whose slot did not change since the refresh compared it. */
  ghost predicate SlotHeld<K, V>(states: seq<State<K, V>>, events: seq<Event<K, V>>, i: nat)
    requires i < |events| && i < |states|
  {
    WritesBack(states[i], events[i]) ==>
      forall m :: 0 <= m < i && events[m] == Refreshing(events[i].task, RecheckSlot) ==>
        !SlotChanges(states, states[i].refreshes[events[i].task].key, m + 1, i)
  }

  /** No slot changed between a refresh's comparison and its insert, among the first `n` events. */
  ghost predicate SlotsHeld<K, V>(states: seq<State<K, V>>, events: seq<Event<K, V>>, n: nat)
    requires n <= |events| && n <= |states|
  {
    forall i :: 0 <= i < n ==> SlotHeld(states, events, i)
  }

  lemma HeldSlotsFindOwn<K, V>(w: World<K, V>, states: seq<State<K, V>>, events: seq<Event<K, V>>, n: nat)
    requires IsRun(w, states, events) && n < |states| && SlotsHeld(states, events, n)
    ensures AllFindOwn(states, events, n)
  {
    assert |states| == |events| + 1;
    hide IsRun;
    forall i | 0 <= i < n ensures FindsOwn(states[i], events[i]) {
      if WritesBack(states[i], events[i]) {
        assert SlotHeld(states, events, i);
        var l, m := RefreshReplacesItsOwn(w, states, events, i, events[i].task);
      }
    }
  }

  /** If the comparison and the insert were one step, loads would stay in order in every run. */
  lemma HeldSlotsAreOrdered<K, V>(w: World<K, V>, states: seq<State<K, V>>, events: seq<Event<K, V>>, n: nat)
    requires IsRun(w, states, events) && n < |states| && SlotsHeld(states, events, n)
    ensures AllInTurn(states, events, n) && OrderedUpTo(states, n)
  {
    hide IsRun, SlotsHeld, AllFindOwn, OrderedUpTo, AllInTurn, Monotone, Vacant;
    HeldSlotsFindOwn(w, states, events, n);
    OwnInsertsAreInTurn(w, states, events, n);
    OrderExactlyWhen(w, states, events, n);
  }

  /** Of two entries a slot holds, one after the other, the later one is from the later load. */
  lemma SlotsMoveForward<K, V>(
      w: World<K, V>, states: seq<State<K, V>>, events: seq<Event<K, V>>, m: nat, n: nat, k: K)
    requires IsRun(w, states, events) && m <= n < |states| && SlotsHeld(states, events, n)
    requires k in states[m].slots && k in states[n].slots
    ensures states[m].slots[k] in states[m].entries && states[n].slots[k] in states[n].entries
    ensures states[m].slots[k] != states[n].slots[k] ==>
              states[m].entries[states[m].slots[k]].started < states[n].entries[states[n].slots[k]].started
  {
    hide IsRun, SlotsHeld, OrderedUpTo, AllInTurn;
    HeldSlotsAreOrdered(w, states, events, n);
    SlotsForwardInTurn(w, states, events, m, n, k);
  }

  /** A call that begins after another answered never answers with an older load. */
  lemma LaterReadsAreNoOlder<K, V>(
      w: World<K, V>, states: seq<State<K, V>>, events: seq<Event<K, V>>, n: nat, i: nat, j: nat)
    requires IsRun(w, states, events) && n < |states| && SlotsHeld(states, events, n)
    requires i < |states[n].answers| && j < |states[n].answers|
    ensures InOrder(states[n], states[n].answers[i], states[n].answers[j])
  {
    hide IsRun, SlotsHeld, OrderedUpTo, AllInTurn, InOrder;
    HeldSlotsAreOrdered(w, states, events, n);
    ReadsForwardInTurn(w, states, events, n, i, j);
  }

  // ---- Exactly when an insert breaks the order. ----

  /** From `s` to `t`, `k`'s slot receives an entry whose load began at `started` or later. */
  ghost predicate Receives<K, V>(s: State<K, V>, t: State<K, V>, k: K, started: nat) {
    && k in t.slots && Slot(s, k) != Slot(t, k)
    && t.slots[k] in t.entries && started <= t.entries[t.slots[k]].started
  }

  ghost predicate ReceivedBetween<K, V>(states: seq<State<K, V>>, k: K, started: nat, m: nat, n: nat)
    requires m <= n < |states|
  {
    exists j :: m <= j < n && Receives(states[j], states[j + 1], k, started)
  }

  /** A load of `k` that began at `started` or earlier is still in flight. */
  ghost predicate StillFlying<K, V>(s: State<K, V>, k: K, started: nat) {
    k in s.active && s.active[k] in s.flights && s.flights[s.active[k]].started <= started
  }

  /**
  Event `n` inserts a load although, since the refresh compared its slot, the slot received a load
  begun no earlier, or although a load begun no later is still in flight.
  */
  ghost predicate InsertsLate<K, V>(states: seq<State<K, V>>, events: seq<Event<K, V>>, n: nat)
    requires n < |events| && n < |states|
  {
    WritesBack(states[n], events[n]) &&
    var k, started := states[n].refreshes[events[n].task].key, states[n].refreshes[events[n].task].phase.load.started;
    exists m :: 0 <= m < n && events[m] == Refreshing(events[n].task, RecheckSlot)
                && (ReceivedBetween(states, k, started, m + 1, n) || StillFlying(states[n], k, started))
  }

  /** What the last load a slot received is after an event: what it was, or what the event put there. */
  lemma LatestBack<K, V>(w: World<K, V>, s: State<K, V>, ev: Event<K, V>, k: K)
    requires Shape(w, s) && MadeOnce(s) && Enabled(s, ev) && k in Apply(w, s, ev).latest
    ensures var t := Apply(w, s, ev);
            (k in s.latest && s.latest[k] == t.latest[k]) || Receives(s, t, k, t.latest[k])
  {
    hide CallDo, CallCan, RefreshDo, RefreshCan, MadeOnce;
    match ev
    case Advance(g, step) =>
      hide Shape;
      LatestAfterCall(w, s, g, step, k);
    case Refreshing(r, step) =>
      hide Shape;
      LatestAfterRefresh(w, s, r, step, k);
    case _ =>
  }

  lemma LatestAfterCall<K, V>(w: World<K, V>, s: State<K, V>, g: nat, step: CallStep, k: K)
    requires Shape(w, s) && MadeOnce(s) && CallCan(s, g, step) && k in CallDo(w, s, g, step).latest
    ensures var t := CallDo(w, s, g, step);
            (k in s.latest && s.latest[k] == t.latest[k]) || Receives(s, t, k, t.latest[k])
  {
    LoadFrame(w, s, g, step);
    if step.Insert? { NewToItsSlot(w, s, g); } else { hide CallDo, CallCan; }
    hide Shape, MadeOnce;
  }

  lemma LatestAfterRefresh<K, V>(w: World<K, V>, s: State<K, V>, r: nat, step: RefreshStep, k: K)
    requires Shape(w, s) && RefreshCan(s, r, step) && k in RefreshDo(w, s, r, step).latest
    ensures var t := RefreshDo(w, s, r, step);
            (k in s.latest && s.latest[k] == t.latest[k]) || Receives(s, t, k, t.latest[k])
  {
    Unused(w, s);
    assert k in s.slots ==> EntryFor(s, s.slots[k], k);
    hide Shape;
    RefreshFrame(w, s, r, step);
    if !step.WriteBack? { hide RefreshDo; }
  }

  lemma NewToItsSlot<K, V>(w: World<K, V>, s: State<K, V>, g: nat)
    requires Shape(w, s) && MadeOnce(s) && CallCan(s, g, Insert)
    ensures Slot(s, s.flights[g].key) != Some(s.flights[g].phase.entry)
  {
    hide Shape;
    if s.flights[g].key in s.slots { assert NotAirborne(s, s.slots[s.flights[g].key]); }
  }

  lemma {:induction false} ReceivedSince<K, V>(
      w: World<K, V>, states: seq<State<K, V>>, events: seq<Event<K, V>>, m: nat, n: nat, k: K, started: nat)
    requires IsRun(w, states, events) && m <= n < |states|
    requires k in states[m].latest ==> states[m].latest[k] < started
    requires k in states[n].latest && started <= states[n].latest[k]
    ensures ReceivedBetween(states, k, started, m, n)
  {
    hide Shape, Flags, Accounts, Current, MadeOnce, Apply, Enabled;
    if m == n {
    } else {
      var s, t, ev := states[n - 1], states[n - 1 + 1], events[n - 1];
      EveryState(w, states, events, n - 1);
      EveryStateMadeOnce(w, states, events, n - 1);
      LatestBack(w, s, ev, k);
      if Receives(s, t, k, t.latest[k]) {
        assert Receives(s, t, k, started);
      } else {
        ReceivedSince(w, states, events, m, n - 1, k, started);
      }
    }
  }

  /** In a run in order so far, what a slot received the last load it received is no older than. */
  lemma ReceivedIsNoLater<K, V>(
      w: World<K, V>, states: seq<State<K, V>>, events: seq<Event<K, V>>, m: nat, n: nat, k: K, started: nat)
    requires IsRun(w, states, events) && m <= n < |states| && AllInTurn(states, events, n)
    requires ReceivedBetween(states, k, started, m, n)
    ensures k in states[n].latest && started <= states[n].latest[k]
  {
    var j :| m <= j < n && Receives(states[j], states[j + 1], k, started);
    EveryMonotoneState(w, states, events, j + 1);
    assert SlotMono(states[j + 1], k);
    hide IsRun, OutOfTurn, Monotone;
    SlotsSucceed(w, states, events, j + 1, n, k);
  }

  /** At the comparison the last load the slot received was older than the refresh's. */
  lemma SlotCompared<K, V>(w: World<K, V>, states: seq<State<K, V>>, events: seq<Event<K, V>>, n: nat)
      returns (m: nat)
    requires IsRun(w, states, events) && n < |events| && WritesBack(states[n], events[n])
    requires AllInTurn(states, events, n)
    ensures m < n && events[m] == Refreshing(events[n].task, RecheckSlot)
    ensures var rf := states[n].refreshes[events[n].task];
            rf.key in states[m + 1].latest && states[m + 1].latest[rf.key] < rf.phase.load.started
    ensures forall i :: 0 <= i < n && events[i] == Refreshing(events[n].task, RecheckSlot) ==> i == m
  {
    hide Apply, Enabled;
    var r, rf := events[n].task, states[n].refreshes[events[n].task];
    m := CameFrom(w, states, events, n, r);
    EveryMonotoneState(w, states, events, m);
    OlderAtComparison(w, states, events, m, r);
    forall i | 0 <= i < n && events[i] == Refreshing(r, RecheckSlot) ensures i == m {
      if i < m {
        StepsInOrder(w, states, events, i, m, r, RecheckSlot, RecheckSlot);
      } else if m < i {
        StepsInOrder(w, states, events, m, i, r, RecheckSlot, RecheckSlot);
      }
    }
  }

  lemma OlderAtComparison<K, V>(w: World<K, V>, states: seq<State<K, V>>, events: seq<Event<K, V>>, m: nat, r: nat)
    requires IsRun(w, states, events) && m < |events| && events[m] == Refreshing(r, RecheckSlot)
    requires r in states[m].refreshes && states[m].refreshes[r].phase.EpochChecked? && Monotone(states[m])
    requires Slot(states[m], states[m].refreshes[r].key) == Some(states[m].refreshes[r].from)
    ensures var rf := states[m].refreshes[r];
            rf.key in states[m + 1].latest && states[m + 1].latest[rf.key] < rf.phase.load.started
  {
    var s, rf := states[m], states[m].refreshes[r];
    SlotUnchanged(w, states, events, m, r);
    EveryState(w, states, events, m);
    hide IsRun, Apply, Enabled, Flags, Accounts, Current;
    RefreshKnown(w, s, r);
    EntryKnown(w, s, rf.from);
    assert SlotMono(s, rf.key);
  }

  /** In a run in order so far, an insert is out of turn exactly when it comes too late, told by events. */
  lemma OutOfTurnExactlyWhen<K, V>(w: World<K, V>, states: seq<State<K, V>>, events: seq<Event<K, V>>, n: nat)
    requires IsRun(w, states, events) && n < |events| && AllInTurn(states, events, n)
    ensures OutOfTurn(states[n], events[n]) <==> InsertsLate(states, events, n)
  {
    assert |states| == |events| + 1;
    hide IsRun, AllInTurn;
    var s, ev := states[n], events[n];
    if WritesBack(s, ev) {
      var k, started := s.refreshes[ev.task].key, s.refreshes[ev.task].phase.load.started;
      var m := SlotCompared(w, states, events, n);
      if k in s.latest && started <= s.latest[k] {
        ReceivedSince(w, states, events, m + 1, n, k, started);
      }
      if ReceivedBetween(states, k, started, m + 1, n) {
        ReceivedIsNoLater(w, states, events, m + 1, n, k, started);
      }
    }
  }

  /** No refresh among the first `n` events inserted too late. */
  ghost predicate NoneLate<K, V>(states: seq<State<K, V>>, events: seq<Event<K, V>>, n: nat)
    requires n <= |events| && n <= |states|
  {
    forall i :: 0 <= i < n ==> !InsertsLate(states, events, i)
  }

  /**
  When the loads of a run stay in order, told by its events: if and only if no refresh inserted its
  load after its slot, since the comparison, had received one begun no earlier, nor while one begun
  no later was in flight.
  */
  lemma OrderByEvents<K, V>(w: World<K, V>, states: seq<State<K, V>>, events: seq<Event<K, V>>, n: nat)
    requires IsRun(w, states, events) && n < |states|
    ensures OrderedUpTo(states, n) <==> NoneLate(states, events, n)
  {
    hide IsRun, OrderedUpTo, AllInTurn, NoneLate;
    OrderExactlyWhen(w, states, events, n);
    TurnsByEvents(w, states, events, n);
  }

  lemma {:induction false} TurnsByEvents<K, V>(
      w: World<K, V>, states: seq<State<K, V>>, events: seq<Event<K, V>>, n: nat)
    requires IsRun(w, states, events) && n < |states|
    ensures AllInTurn(states, events, n) <==> NoneLate(states, events, n)
  {
    assert |states| == |events| + 1;
    hide IsRun, InsertsLate, OutOfTurn;
    if n == 0 {
    } else {
      TurnsByEvents(w, states, events, n - 1);
      OneMoreEvent(states, events, n - 1);
      hide AllInTurn, NoneLate;
      if AllInTurn(states, events, n - 1) { OutOfTurnExactlyWhen(w, states, events, n - 1); }
    }
  }

  lemma OneMoreEvent<K, V>(states: seq<State<K, V>>, events: seq<Event<K, V>>, n: nat)
    requires n < |events| && n < |states|
    ensures AllInTurn(states, events, n + 1) <==> AllInTurn(states, events, n) && !OutOfTurn(states[n], events[n])
    ensures NoneLate(states, events, n + 1) <==> NoneLate(states, events, n) && !InsertsLate(states, events, n)
  {
    hide OutOfTurn, InsertsLate;
  }
}
