/**
Looking back along a run: which events brought a refresh to its insert, which events an
invalidation is made of, and what became of the entry a call was bound to remove. All of it holds
of every run, whatever fell between a refresh's checks and its insert.
*/
module SwrHistory {
  import opened Wrappers
  import opened SwrModel
  import opened SwrInvariants
  import opened SwrSafety
  import opened SwrFlags
  import opened SwrAccounting
  import opened SwrMonotone
  import opened SwrRuns

  // ---- How a refresh came to its insert. ----

  /** What `k`'s slot holds. */
  function Slot<K, V>(s: State<K, V>, k: K): Option<nat> {
    if k in s.slots then Some(s.slots[k]) else None
  }

  /** Refresh `r` goes from `before` to `after` by `step` on `s`. */
  ghost predicate Leads<K, V>(s: State<K, V>, step: RefreshStep, before: Refresh<K, V>, after: Refresh<K, V>) {
    && before.key == after.key && before.from == after.from && before.epochBefore == after.epochBefore
    && match after.phase
       case Confirmed(load) =>
         step.RecheckSlot? && before.phase == EpochChecked(load) && Slot(s, after.key) == Some(after.from)
       case EpochChecked(load) => step.RecheckEpoch? && before.phase == Loaded(load) && s.epoch == after.epochBefore
       case Loaded(load) => step.Receive? && before.phase == Running(load.started)
       case Running(started) => step.Start? && before.phase.Spawned? && started == s.stamp
       case _ => true
  }

  /** A refresh that is past its spawning was so before the event, or the event was its own step. */
  lemma StepBack<K, V>(w: World<K, V>, s: State<K, V>, ev: Event<K, V>, r: nat)
    requires Enabled(s, ev) && r in Apply(w, s, ev).refreshes && !Apply(w, s, ev).refreshes[r].phase.Spawned?
    ensures r in s.refreshes
    ensures var after := Apply(w, s, ev).refreshes[r];
            || s.refreshes[r] == after
            || (ev.Refreshing? && ev.task == r && Leads(s, ev.refreshStep, s.refreshes[r], after))
  {
    match ev
    case Advance(g, step) =>
      CallFrame(w, s, g, step);
      if !step.Spawn? { hide CallDo, CallCan, StepMove; }
    case Refreshing(q, step) =>
      hide CallDo, CallCan;
      RefreshBack(w, s, q, step, r);
    case _ => hide CallDo, RefreshDo, CallCan, RefreshCan;
  }

  lemma RefreshBack<K, V>(w: World<K, V>, s: State<K, V>, q: nat, step: RefreshStep, r: nat)
    requires RefreshCan(s, q, step) && r in RefreshDo(w, s, q, step).refreshes
    ensures r in s.refreshes
    ensures var after := RefreshDo(w, s, q, step).refreshes[r];
            s.refreshes[r] == after || (q == r && Leads(s, step, s.refreshes[r], after))
  {
  }

  /** The event before `n` that brought refresh `r` where it stands, and the states since. */
  lemma {:induction false} CameFrom<K, V>(
      w: World<K, V>, states: seq<State<K, V>>, events: seq<Event<K, V>>, n: nat, r: nat) returns (m: nat)
    requires IsRun(w, states, events) && n < |states|
    requires r in states[n].refreshes && !states[n].refreshes[r].phase.Spawned?
    ensures m < n && events[m].Refreshing? && events[m].task == r && r in states[m].refreshes
    ensures Leads(states[m], events[m].refreshStep, states[m].refreshes[r], states[n].refreshes[r])
  {
    hide Leads, Apply, Enabled;
    if n == 0 {
    } else {
      StepBack(w, states[n - 1], events[n - 1], r);
      if states[n - 1].refreshes[r] == states[n].refreshes[r] {
        m := CameFrom(w, states, events, n - 1, r);
      } else {
        m := n - 1;
      }
    }
  }

  /**
  Every insert of a refresh was preceded by both of its checks, the epoch current at the first and
  its own entry in the slot at the second; and what it replaces is that entry, unless an event
  since the second check changed the slot.
  */
  lemma RefreshReplacesItsOwn<K, V>(
      w: World<K, V>, states: seq<State<K, V>>, events: seq<Event<K, V>>, n: nat, r: nat) returns (l: nat, m: nat)
    requires IsRun(w, states, events) && n < |events| && events[n] == Refreshing(r, WriteBack)
    ensures l < m < n && r in states[n].refreshes
    ensures var rf := states[n].refreshes[r];
            && events[l] == Refreshing(r, RecheckEpoch) && states[l].epoch == rf.epochBefore
            && events[m] == Refreshing(r, RecheckSlot) && Slot(states[m], rf.key) == Some(rf.from)
            && (Slot(states[n], rf.key) != Some(rf.from) ==> SlotChanges(states, rf.key, m + 1, n))
            && states[n + 1].slots == states[n].slots[rf.key := states[n].stamp]
  {
    var s := states[n];
    assert Enabled(s, events[n]) && states[n + 1] == Apply(w, s, events[n]);
    assert RefreshCan(s, r, WriteBack) && Apply(w, s, events[n]).slots == s.slots[s.refreshes[r].key := s.stamp];
    hide Apply, Enabled;
    m := CameFrom(w, states, events, n, r);
    l := CameFrom(w, states, events, m, r);
    SlotUnchanged(w, states, events, m, r);
    if !SlotChanges(states, s.refreshes[r].key, m + 1, n) {
      SlotStays(states, s.refreshes[r].key, m + 1, n);
    }
  }

  /** Somewhere between states `m` and `n` the slot of `k` changes. */
  ghost predicate SlotChanges<K, V>(states: seq<State<K, V>>, k: K, m: nat, n: nat)
    requires m <= n < |states|
  {
    exists j :: m <= j < n && Slot(states[j], k) != Slot(states[j + 1], k)
  }

  lemma {:induction false} SlotStays<K, V>(states: seq<State<K, V>>, k: K, m: nat, n: nat)
    requires m <= n < |states| && !SlotChanges(states, k, m, n)
    ensures Slot(states[n], k) == Slot(states[m], k)
  {
    if m == n {
    } else {
      assert Slot(states[n - 1], k) == Slot(states[n - 1 + 1], k);
      SlotStays(states, k, m, n - 1);
    }
  }

  /** The slot check itself changes no slot. */
  lemma SlotUnchanged<K, V>(w: World<K, V>, states: seq<State<K, V>>, events: seq<Event<K, V>>, m: nat, r: nat)
    requires IsRun(w, states, events) && m < |events| && events[m] == Refreshing(r, RecheckSlot)
    ensures states[m + 1].slots == states[m].slots && states[m + 1].latest == states[m].latest
  {
    var s := states[m];
    assert Enabled(s, events[m]) && states[m + 1] == Apply(w, s, events[m]);
    RefreshFrame(w, s, r, RecheckSlot);
  }

  // ---- When things came to be. ----

  /** An entry was there before the event, or the event made it and gave it the clock's reading. */
  lemma EntryBack<K, V>(w: World<K, V>, s: State<K, V>, ev: Event<K, V>, e: nat)
    requires Enabled(s, ev) && e in Apply(w, s, ev).entries
    ensures var en := Apply(w, s, ev).entries[e];
            || (e in s.entries && s.entries[e] == en)
            || (e == s.stamp && en.fetchedAt == s.clock && MakesEntry(ev))
  {
    match ev
    case Advance(g, step) =>
      hide RefreshDo, RefreshCan;
      CallFrame(w, s, g, step);
      if !step.LoadOk? { hide CallDo, CallCan, StepMove; }
    case Refreshing(r, step) =>
      hide CallDo, CallCan;
      RefreshFrame(w, s, r, step);
      if !step.WriteBack? { hide RefreshDo; }
    case _ => hide CallDo, CallCan, RefreshDo, RefreshCan;
  }

  /** A loader ended with a value, or a refresh wrote back. */
  predicate MakesEntry<K, V>(ev: Event<K, V>) {
    (ev.Advance? && ev.step.LoadOk?) || (ev.Refreshing? && ev.refreshStep.WriteBack?)
  }

  /** Every entry carries the clock's reading at the event that made it. */
  lemma {:induction false} EntriesAreDated<K, V>(
      w: World<K, V>, states: seq<State<K, V>>, events: seq<Event<K, V>>, n: nat, e: nat)
    requires IsRun(w, states, events) && n < |states| && e in states[n].entries
    ensures 1 <= e <= n && MakesEntry(events[e - 1]) && states[n].entries[e].fetchedAt == states[e - 1].clock
  {
    hide Apply, Enabled;
    if n == 0 {
    } else {
      StampsCount(w, states, events, n - 1);
      EntryBack(w, states[n - 1], events[n - 1], e);
      if e in states[n - 1].entries && states[n - 1].entries[e] == states[n].entries[e] {
        EntriesAreDated(w, states, events, n - 1, e);
      }
    }
  }

  /** A call was there before the event, with its key and clock reading, or the event began it. */
  lemma CallBack<K, V>(w: World<K, V>, s: State<K, V>, ev: Event<K, V>, g: nat)
    requires Enabled(s, ev) && g in Apply(w, s, ev).calls
    ensures var c := Apply(w, s, ev).calls[g];
            || (g in s.calls && s.calls[g].key == c.key && s.calls[g].readClock == c.readClock)
            || (g == s.stamp && ev == Begin(c.key) && c.readClock == s.clock)
  {
    hide CallDo, CallCan, RefreshDo, RefreshCan, StepMove;
    match ev
    case Advance(h, step) =>
      CallFrame(w, s, h, step);
      CallerThere(s, h, step);
    case Refreshing(r, step) => RefreshFrame(w, s, r, step);
    case _ =>
  }

  lemma CallerThere<K, V>(s: State<K, V>, g: nat, step: CallStep)
    requires CallCan(s, g, step)
    ensures g in s.calls
  {
  }

  lemma AnswerBack<K, V>(w: World<K, V>, s: State<K, V>, ev: Event<K, V>, j: nat)
    requires Enabled(s, ev) && j < |Apply(w, s, ev).answers|
    ensures var a := Apply(w, s, ev).answers[j];
            || (j < |s.answers| && s.answers[j] == a)
            || (ev.Advance? && ev.call == a.begun && a.at == s.stamp && a.begun in s.calls
                && s.calls[a.begun].key == a.key && s.calls[a.begun].readClock == a.readClock)
  {
    hide CallDo, CallCan, RefreshDo, RefreshCan, StepMove;
    match ev
    case Advance(h, step) =>
      CallFrame(w, s, h, step);
      CallerThere(s, h, step);
    case Refreshing(r, step) => RefreshFrame(w, s, r, step);
    case _ =>
  }

  /** Every call in progress carries its key and the clock's reading at the event that began it. */
  lemma {:induction false} CallsAreDated<K, V>(
      w: World<K, V>, states: seq<State<K, V>>, events: seq<Event<K, V>>, n: nat, g: nat)
    requires IsRun(w, states, events) && n < |states| && g in states[n].calls
    ensures 1 <= g <= n && events[g - 1] == Begin(states[n].calls[g].key)
    ensures states[n].calls[g].readClock == states[g - 1].clock
  {
    hide Apply, Enabled;
    if n == 0 {
    } else {
      StampsCount(w, states, events, n - 1);
      CallBack(w, states[n - 1], events[n - 1], g);
      var s, c := states[n - 1], states[n].calls[g];
      if g in s.calls && s.calls[g].key == c.key && s.calls[g].readClock == c.readClock {
        CallsAreDated(w, states, events, n - 1, g);
      }
    }
  }

  /** Every answer is that of a call begun with its key, judged by the clock at its beginning, given by its own step. */
  lemma {:induction false} AnswersAreDated<K, V>(
      w: World<K, V>, states: seq<State<K, V>>, events: seq<Event<K, V>>, n: nat, j: nat)
    requires IsRun(w, states, events) && n < |states| && j < |states[n].answers|
    ensures var a := states[n].answers[j];
            && 1 <= a.begun < a.at <= n && events[a.begun - 1] == Begin(a.key)
            && a.readClock == states[a.begun - 1].clock
            && events[a.at - 1].Advance? && events[a.at - 1].call == a.begun
  {
    hide Apply, Enabled;
    if n == 0 {
    } else {
      StampsCount(w, states, events, n - 1);
      var s := states[n - 1];
      AnswerBack(w, s, events[n - 1], j);
      if j < |s.answers| && s.answers[j] == states[n].answers[j] {
        AnswersAreDated(w, states, events, n - 1, j);
      } else {
        CallsAreDated(w, states, events, n - 1, states[n].answers[j].begun);
      }
    }
  }

  // ---- A refresh takes its steps in order, each once. ----

  function PhaseRank<V>(phase: RefreshPhase<V>): nat {
    match phase
    case Spawned => 6
    case Running(_) => 5
    case Loaded(_) => 4
    case EpochChecked(_) => 3
    case Confirmed(_) => 2
    case Exiting => 1
  }

  /** The rank of the phase in which a refresh takes `step`. */
  function StepRank(step: RefreshStep): nat {
    match step
    case Start => 6
    case Receive(_) => 5
    case ReceiveErr => 5
    case Panic => 5
    case RecheckEpoch => 4
    case RecheckSlot => 3
    case WriteBack => 2
    case Exit => 1
  }

  /** Refresh `r` has come as far as `rank`, or is gone. */
  ghost predicate Past<K, V>(s: State<K, V>, r: nat, rank: nat) {
    r < s.stamp && (r in s.refreshes ==> PhaseRank(s.refreshes[r].phase) <= rank)
  }

  lemma PastKept<K, V>(w: World<K, V>, s: State<K, V>, ev: Event<K, V>, r: nat, rank: nat)
    requires Enabled(s, ev) && Past(s, r, rank)
    ensures Past(Apply(w, s, ev), r, rank)
  {
    hide CallDo, RefreshDo, CallCan, RefreshCan, PhaseRank;
    match ev
    case Advance(g, step) => CallSpawns(w, s, g, step);
    case Refreshing(q, step) =>
      RefreshAdvances(w, s, q, step);
      OthersRest(w, s, q, step);
    case _ =>
  }

  lemma CallSpawns<K, V>(w: World<K, V>, s: State<K, V>, g: nat, step: CallStep)
    requires CallCan(s, g, step)
    ensures CallDo(w, s, g, step).stamp == s.stamp
    ensures forall r :: r in CallDo(w, s, g, step).refreshes && r != s.stamp ==>
              r in s.refreshes && CallDo(w, s, g, step).refreshes[r] == s.refreshes[r]
  {
    CallFrame(w, s, g, step);
    if !step.Spawn? { hide CallDo, CallCan, StepMove; }
  }

  lemma OthersRest<K, V>(w: World<K, V>, s: State<K, V>, q: nat, step: RefreshStep)
    requires RefreshCan(s, q, step)
    ensures RefreshDo(w, s, q, step).stamp == s.stamp
    ensures forall r :: r in RefreshDo(w, s, q, step).refreshes && r != q ==>
              r in s.refreshes && RefreshDo(w, s, q, step).refreshes[r] == s.refreshes[r]
    ensures q in s.refreshes
  {
    RefreshFrame(w, s, q, step);
    if !step.Exit? { hide RefreshDo; }
  }

  lemma RefreshAdvances<K, V>(w: World<K, V>, s: State<K, V>, r: nat, step: RefreshStep)
    requires RefreshCan(s, r, step)
    ensures PhaseRank(s.refreshes[r].phase) == StepRank(step)
    ensures r in RefreshDo(w, s, r, step).refreshes ==>
              PhaseRank(RefreshDo(w, s, r, step).refreshes[r].phase) < StepRank(step)
  {
  }

  lemma {:induction false} StaysPast<K, V>(
      w: World<K, V>, states: seq<State<K, V>>, events: seq<Event<K, V>>, m: nat, n: nat, r: nat, rank: nat)
    requires IsRun(w, states, events) && m <= n < |states| && Past(states[m], r, rank)
    ensures Past(states[n], r, rank)
  {
    hide Apply, Enabled, Past;
    if m == n {
    } else {
      StaysPast(w, states, events, m, n - 1, r, rank);
      PastKept(w, states[n - 1], events[n - 1], r, rank);
    }
  }

  /** Of two steps of one refresh the later one is further along; so no check is made twice. */
  lemma StepsInOrder<K, V>(
      w: World<K, V>, states: seq<State<K, V>>, events: seq<Event<K, V>>, i: nat, j: nat, r: nat,
      a: RefreshStep, b: RefreshStep)
    requires IsRun(w, states, events) && i < j < |events|
    requires events[i] == Refreshing(r, a) && events[j] == Refreshing(r, b)
    ensures StepRank(b) < StepRank(a)
  {
    StepTaken(w, states, events, i, r, a);
    StepTaken(w, states, events, j, r, b);
    hide Apply, Enabled;
    StaysPast(w, states, events, i + 1, j, r, StepRank(a) - 1);
  }

  lemma StepTaken<K, V>(
      w: World<K, V>, states: seq<State<K, V>>, events: seq<Event<K, V>>, i: nat, r: nat, a: RefreshStep)
    requires IsRun(w, states, events) && i < |events| && events[i] == Refreshing(r, a)
    ensures r in states[i].refreshes && PhaseRank(states[i].refreshes[r].phase) == StepRank(a) > 0
    ensures Past(states[i + 1], r, StepRank(a) - 1)
  {
    var s := states[i];
    assert Enabled(s, events[i]) && states[i + 1] == Apply(w, s, events[i]);
    EveryState(w, states, events, i);
    hide IsRun, Flags, Accounts, Current, CallDo, CallCan;
    RefreshKnown(w, s, r);
    hide Shape;
    RefreshAdvances(w, s, r, a);
    RefreshFrame(w, s, r, a);
  }

  // ---- What an invalidation is made of. ----

  /** A pending invalidation began with the event that its number names. */
  lemma {:induction false} PendingBegan<K, V>(
      w: World<K, V>, states: seq<State<K, V>>, events: seq<Event<K, V>>, n: nat, i: nat)
    requires IsRun(w, states, events) && n < |states| && i in states[n].pending
    ensures 1 <= i <= n && events[i - 1] == InvalidateBegin(states[n].pending[i])
  {
    hide Apply, Enabled;
    if n == 0 {
    } else {
      StampsCount(w, states, events, n - 1);
      PendingBack(w, states[n - 1], events[n - 1], i);
      if i != n || !events[n - 1].InvalidateBegin? { PendingBegan(w, states, events, n - 1, i); }
    }
  }

  lemma PendingBack<K, V>(w: World<K, V>, s: State<K, V>, ev: Event<K, V>, i: nat)
    requires Enabled(s, ev) && i in Apply(w, s, ev).pending
    ensures if ev.InvalidateBegin? && i == s.stamp then Apply(w, s, ev).pending[i] == ev.scope
            else i in s.pending && s.pending[i] == Apply(w, s, ev).pending[i]
  {
    hide CallDo, RefreshDo, CallCan, RefreshCan;
    match ev
    case Advance(g, step) => CallFrame(w, s, g, step);
    case Refreshing(r, step) => RefreshFrame(w, s, r, step);
    case _ =>
  }

  /** An invalidation that has taken effect did so by an event after the one that began it. */
  lemma {:induction false} DoneHappened<K, V>(
      w: World<K, V>, states: seq<State<K, V>>, events: seq<Event<K, V>>, n: nat, inv: Invalidation<K, V>)
      returns (a: nat, b: nat)
    requires IsRun(w, states, events) && n < |states| && inv in states[n].done
    ensures a < b < n && inv.at == a + 1
    ensures events[a] == InvalidateBegin(inv.scope) && events[b] == InvalidateApply(inv.at)
  {
    hide Apply, Enabled;
    if n == 0 {
    } else {
      var s, ev := states[n - 1], events[n - 1];
      DoneGrows(w, s, ev);
      if inv in s.done {
        a, b := DoneHappened(w, states, events, n - 1, inv);
      } else {
        PendingBegan(w, states, events, n - 1, inv.at);
        a, b := inv.at - 1, n - 1;
      }
    }
  }

  /** The last bump is no earlier than any invalidation begun before. */
  lemma {:induction false} BeginBumps<K, V>(
      w: World<K, V>, states: seq<State<K, V>>, events: seq<Event<K, V>>, a: nat, n: nat)
    requires IsRun(w, states, events) && a < n < |states| && events[a].InvalidateBegin?
    ensures a + 1 <= states[n].lastBump
  {
    hide Apply, Enabled;
    StampsCount(w, states, events, n - 1);
    BumpBack(w, states[n - 1], events[n - 1]);
    if a == n - 1 {
    } else {
      BeginBumps(w, states, events, a, n - 1);
    }
  }

  lemma BumpBack<K, V>(w: World<K, V>, s: State<K, V>, ev: Event<K, V>)
    requires Enabled(s, ev)
    ensures Apply(w, s, ev).lastBump == if ev.InvalidateBegin? then s.stamp else s.lastBump
  {
    hide CallDo, RefreshDo, CallCan, RefreshCan;
    match ev
    case Advance(g, step) => CallFrame(w, s, g, step);
    case Refreshing(r, step) => RefreshFrame(w, s, r, step);
    case _ =>
  }

  /** Conversely, one that began and took effect is on record with the scope it began with. */
  lemma {:induction false} HappenedIsDone<K, V>(
      w: World<K, V>, states: seq<State<K, V>>, events: seq<Event<K, V>>, n: nat, a: nat, b: nat)
    requires IsRun(w, states, events) && a < b < n < |states|
    requires events[a].InvalidateBegin? && events[b] == InvalidateApply(a + 1)
    ensures Invalidation(events[a].scope, a + 1) in states[n].done
    decreases n
  {
    hide Apply;
    DoneGrows(w, states[n - 1], events[n - 1]);
    if b == n - 1 {
      PendingBegan(w, states, events, b, a + 1);
    } else {
      hide Enabled;
      HappenedIsDone(w, states, events, n - 1, a, b);
    }
  }

  // ---- What a call owes, it pays. ----

  /** No flight has `e` still to insert. */
  ghost predicate NotAirborne<K, V>(s: State<K, V>, e: nat) {
    forall f :: f in s.flights && s.flights[f].phase.Made? ==> s.flights[f].phase.entry != e
  }

  /** An entry made and not yet inserted is in no slot, and one flight only has it. */
  ghost predicate MadeOnce<K, V>(s: State<K, V>) {
    && (forall k :: k in s.slots ==> NotAirborne(s, s.slots[k]))
    && (forall f, h :: f in s.flights && h in s.flights && s.flights[f].phase.Made? && s.flights[h].phase.Made? ==>
          s.flights[f].phase.entry == s.flights[h].phase.entry ==> f == h)
  }

  /** What `k`'s slot may receive from an event: nothing, what a flight made, or a new entry. */
  lemma SlotBack<K, V>(w: World<K, V>, s: State<K, V>, ev: Event<K, V>, k: K)
    requires Enabled(s, ev) && k in Apply(w, s, ev).slots
    ensures var e := Apply(w, s, ev).slots[k];
            || Slot(s, k) == Some(e)
            || (ev.Refreshing? && e == s.stamp)
            || (ev.Advance? && ev.step.Insert? && s.flights[ev.call].phase == Made(e)
                && Apply(w, s, ev).flights == s.flights[ev.call := s.flights[ev.call].(phase := Inserted(e))])
  {
    match ev
    case Advance(g, step) =>
      hide RefreshDo, RefreshCan;
      LoadFrame(w, s, g, step);
      if !step.Insert? { hide CallDo; }
    case Refreshing(r, step) =>
      hide CallDo, CallCan;
      RefreshFrame(w, s, r, step);
      if !step.WriteBack? { hide RefreshDo; }
    case _ => hide CallDo, RefreshDo, CallCan, RefreshCan;
  }

  /** A flight with an entry to insert had it before the event, or the event made it. */
  lemma FlightBack<K, V>(w: World<K, V>, s: State<K, V>, ev: Event<K, V>, f: nat)
    requires Enabled(s, ev) && f in Apply(w, s, ev).flights && Apply(w, s, ev).flights[f].phase.Made?
    ensures || (f in s.flights && s.flights[f] == Apply(w, s, ev).flights[f])
            || (ev.Advance? && ev.step.LoadOk? && f == ev.call && Apply(w, s, ev).flights[f].phase == Made(s.stamp))
  {
    match ev
    case Advance(g, step) =>
      hide CallDo, CallCan, RefreshDo, RefreshCan;
      CallFlightBack(w, s, g, step, f);
    case Refreshing(r, step) =>
      hide CallDo, CallCan, RefreshDo, RefreshCan;
      RefreshFrame(w, s, r, step);
    case _ => hide CallDo, RefreshDo, CallCan, RefreshCan;
  }

  lemma CallFlightBack<K, V>(w: World<K, V>, s: State<K, V>, g: nat, step: CallStep, f: nat)
    requires CallCan(s, g, step)
    ensures var t := CallDo(w, s, g, step);
            f in t.flights && t.flights[f].phase.Made? ==>
              || (f in s.flights && s.flights[f] == t.flights[f])
              || (step.LoadOk? && f == g && t.flights[f].phase == Made(s.stamp))
  {
    LoadFrame(w, s, g, step);
    if !Loads(step) { hide CallDo, CallCan; }
  }

  lemma MadeOnceKept<K, V>(w: World<K, V>, s: State<K, V>, ev: Event<K, V>)
    requires Shape(w, s) && MadeOnce(s) && Enabled(s, ev)
    ensures MadeOnce(Apply(w, s, ev))
  {
    var t := Apply(w, s, ev);
    hide Shape, Apply, Enabled;
    forall k, f | k in t.slots && f in t.flights && t.flights[f].phase.Made?
      ensures t.flights[f].phase.entry != t.slots[k]
    {
      hide MadeOnce;
      SlotsApart(w, s, ev, k, f);
    }
    forall f, h | f in t.flights && h in t.flights && t.flights[f].phase.Made? && t.flights[h].phase.Made?
      ensures t.flights[f].phase.entry == t.flights[h].phase.entry ==> f == h
    {
      FlightBack(w, s, ev, f);
      FlightBack(w, s, ev, h);
      if f in s.flights { FlightKnown(w, s, f); }
      if h in s.flights { FlightKnown(w, s, h); }
    }
  }

  lemma SlotsApart<K, V>(w: World<K, V>, s: State<K, V>, ev: Event<K, V>, k: K, f: nat)
    requires Shape(w, s) && MadeOnce(s) && Enabled(s, ev)
    requires var t := Apply(w, s, ev); k in t.slots && f in t.flights && t.flights[f].phase.Made?
    ensures var t := Apply(w, s, ev); t.flights[f].phase.entry != t.slots[k]
  {
    assert k in s.slots ==> EntryFor(s, s.slots[k], k);
    if f in s.flights { FlightKnown(w, s, f); }
    hide Shape, Apply, Enabled;
    SlotBack(w, s, ev, k);
    FlightBack(w, s, ev, f);
    if k in s.slots { assert NotAirborne(s, s.slots[k]); }
  }

  lemma {:induction false} EveryStateMadeOnce<K, V>(
      w: World<K, V>, states: seq<State<K, V>>, events: seq<Event<K, V>>, n: nat)
    requires IsRun(w, states, events) && n < |states|
    ensures MadeOnce(states[n])
  {
    hide Apply, Enabled;
    if n == 0 {
      assert states[0] == Init();
    } else {
      hide Shape, Flags, Accounts, Current, MadeOnce;
      EveryStateMadeOnce(w, states, events, n - 1);
      EveryState(w, states, events, n - 1);
      MadeOnceKept(w, states[n - 1], events[n - 1]);
    }
  }

  /** If `k`'s slot holds `e`, call `g` owes its removal; and nothing will put `e` there again. */
  ghost predicate Due<K, V>(s: State<K, V>, g: nat, k: K, e: nat) {
    e < s.stamp && NotAirborne(s, e) && (Slot(s, k) == Some(e) ==> Owes(s, g, k))
  }

  lemma DueKept<K, V>(w: World<K, V>, s: State<K, V>, ev: Event<K, V>, g: nat, k: K, e: nat)
    requires Shape(w, s) && Enabled(s, ev) && Due(s, g, k, e)
    ensures Due(Apply(w, s, ev), g, k, e)
  {
    var t := Apply(w, s, ev);
    OneTick(w, s, ev);
    hide Apply, Enabled;
    forall f | f in t.flights && t.flights[f].phase.Made? ensures t.flights[f].phase.entry != e {
      FlightBack(w, s, ev, f);
    }
    if Slot(t, k) == Some(e) {
      SlotBack(w, s, ev, k);
      assert Slot(s, k) == Some(e);
      hide Shape;
      OwesKept(w, s, ev, g, k);
    }
  }

  /** A debt stands until the slot is emptied. */
  lemma OwesKept<K, V>(w: World<K, V>, s: State<K, V>, ev: Event<K, V>, g: nat, k: K)
    requires Shape(w, s) && Enabled(s, ev) && k in s.slots && Owes(s, g, k)
    requires Slot(Apply(w, s, ev), k) == Some(s.slots[k])
    ensures Owes(Apply(w, s, ev), g, k)
  {
    hide CallDo, CallCan, RefreshDo, RefreshCan;
    Standing(w, s, g);
    hide Shape;
    match ev
    case Advance(h, step) => OwesThroughCall(w, s, h, step, g, k);
    case Refreshing(r, step) => RefreshFrame(w, s, r, step);
    case _ =>
  }

  lemma OwesThroughCall<K, V>(w: World<K, V>, s: State<K, V>, h: nat, step: CallStep, g: nat, k: K)
    requires CallCan(s, h, step) && k in s.slots && Owes(s, g, k)
    requires Slot(CallDo(w, s, h, step), k) == Some(s.slots[k])
    ensures Owes(CallDo(w, s, h, step), g, k)
  {
    CallFrame(w, s, h, step);
    LoadFrame(w, s, h, step);
    if h != g {
      hide CallDo, CallCan, StepMove;
    } else {
      hide CallDo;
    }
  }

  lemma {:induction false} StaysDue<K, V>(
      w: World<K, V>, states: seq<State<K, V>>, events: seq<Event<K, V>>, m: nat, n: nat, g: nat, k: K, e: nat)
    requires IsRun(w, states, events) && m <= n < |states| && Due(states[m], g, k, e)
    ensures Due(states[n], g, k, e)
  {
    hide Apply, Enabled, Shape, Flags, Accounts, Current, Due;
    if m == n {
    } else {
      StaysDue(w, states, events, m, n - 1, g, k, e);
      EveryState(w, states, events, n - 1);
      DueKept(w, states[n - 1], events[n - 1], g, k, e);
    }
  }

  /** The entry a call was bound to remove is gone from its slot once the call has answered, for good. */
  lemma DebtIsPaid<K, V>(
      w: World<K, V>, states: seq<State<K, V>>, events: seq<Event<K, V>>, m: nat, n: nat, g: nat, k: K)
    requires IsRun(w, states, events) && m <= n < |states|
    requires k in states[m].slots && Owes(states[m], g, k) && g !in states[n].calls
    ensures Slot(states[n], k) != Some(states[m].slots[k])
  {
    hide Apply, Enabled, IsRun, Flags, Accounts, Current;
    EveryState(w, states, events, m);
    EveryStateMadeOnce(w, states, events, m);
    assert EntryFor(states[m], states[m].slots[k], k);
    hide Shape;
    StaysDue(w, states, events, m, n, g, k, states[m].slots[k]);
  }
}
