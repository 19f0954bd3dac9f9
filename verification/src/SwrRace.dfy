/**
The window in the refresh write-back. Between the checks of a refresh and its insert nothing is
held, so what happens there the insert may undo. Two runs show it. In one, an invalidation begins
and completes in the window, and the slot ends up holding a load from before it which no call is
bound to remove. In the other, the entry is evicted and loaded anew in the window, and a later
call answers with an older load than an earlier one did. `SwrEpochGuard.SafetyByEvents` and
`SwrSlotGuard.OrderByEvents` say that nothing else goes wrong.
*/
module SwrRace {
  import opened Wrappers
  import opened SwrModel
  import opened SwrSafety
  import opened SwrMonotone
  import opened SwrRuns
  import opened SwrHistory

  type Cache = State<nat, nat>
  type Change = Event<nat, nat>

  /** A source that never holds the same value twice, and entries that are stale at once. */
  const WORLD: World<nat, nat> := World(Config(10, 0, 5, 1), (t, k) => Some(t))

  // ---- One call on key 7, step by step, with no other in progress. ----

  function Only(s: Cache, g: nat, c: Call<nat>, pc: Pc): Cache {
    s.(stamp := s.stamp + 1, calls := map[g := c.(pc := pc)])
  }

  lemma BeginStep(s: Cache) returns (c: Call<nat>)
    requires s.calls == map[] && s.clock == 0
    ensures c.key == 7 && c.readClock == 0 && c.pc == Begun && Enabled(s, Begin(7))
    ensures Apply(WORLD, s, Begin(7)) ==
              Only(s, s.stamp, c, Begun).(metrics := s.metrics.(calls := s.metrics.calls + 1))
  {
    BeginIs(s);
    hide Apply, Enabled;
    var t := DoBegin(s, 7);
    c := t.calls[s.stamp];
    assert t.calls == map[s.stamp := c];
  }

  lemma BeginIs(s: Cache)
    ensures Enabled(s, Begin(7)) && Apply(WORLD, s, Begin(7)) == Next(DoBegin(s, 7))
  {
    hide CallDo, CallCan, RefreshDo, RefreshCan, DoBegin, Next;
  }

  lemma AdvanceIs(s: Cache, g: nat, step: CallStep)
    requires CallCan(s, g, step)
    ensures Enabled(s, Advance(g, step)) && Apply(WORLD, s, Advance(g, step)) == Next(CallDo(WORLD, s, g, step))
  {
    hide CallDo, CallCan, RefreshDo, RefreshCan, Next;
  }

  lemma MovesTo(s: Cache, g: nat, c: Call<nat>, pc: Pc)
    requires s.calls == map[g := c]
    ensures Take(s, g, Goto(pc)) == s.(calls := map[g := c.(pc := pc)])
  {
  }

  lemma MissStep(s: Cache, g: nat, c: Call<nat>)
    requires s.calls == map[g := c] && c.key == 7 && c.pc == Begun && 7 !in s.slots
    ensures Enabled(s, Advance(g, Lookup))
    ensures Apply(WORLD, s, Advance(g, Lookup)) ==
              Only(s, g, c, Missed).(metrics := s.metrics.(misses := s.metrics.misses + 1))
  {
    AdvanceIs(s, g, Lookup);
    hide Apply, Enabled;
    MovesTo(s, g, c, Missed);
    hide Take;
  }

  lemma DropStep(s: Cache, g: nat, c: Call<nat>)
    requires s.calls == map[g := c] && c.key == 7 && c.pc == Missed && 7 !in s.slots
    ensures Enabled(s, Advance(g, DropCurrent))
    ensures Apply(WORLD, s, Advance(g, DropCurrent)) == Only(s, g, c, Dropped)
  {
    AdvanceIs(s, g, DropCurrent);
    hide Apply, Enabled;
    MovesTo(s, g, c, Dropped);
    assert s.slots - {7} == s.slots;
    hide Take;
  }

  lemma CaptureStep(s: Cache, g: nat, c: Call<nat>)
    requires s.calls == map[g := c] && c.pc == Dropped
    ensures Enabled(s, Advance(g, Capture))
    ensures Apply(WORLD, s, Advance(g, Capture)) == Only(s, g, c, Ready(s.epoch))
  {
    AdvanceIs(s, g, Capture);
    hide Apply, Enabled;
    MovesTo(s, g, c, Ready(s.epoch));
    hide Take;
  }

  lemma LeadStep(s: Cache, g: nat, c: Call<nat>)
    requires s.calls == map[g := c] && c.key == 7 && c.pc == Ready(s.epoch)
    requires 7 !in s.slots && s.active == map[]
    ensures Enabled(s, Advance(g, TryGetWith))
    ensures Apply(WORLD, s, Advance(g, TryGetWith)) ==
              Only(s, g, c, Leading(s.epoch)).(
                flights := s.flights[g := Flight(7, s.stamp, Loading)], active := map[7 := g])
  {
    AdvanceIs(s, g, TryGetWith);
    hide Apply, Enabled;
    MovesTo(s, g, c, Leading(s.epoch));
    assert s.active[7 := g] == map[7 := g];
    hide Take;
  }

  lemma LoadStep(s: Cache, g: nat, c: Call<nat>, started: nat)
    requires s.calls == map[g := c] && c.pc.Leading? && s.clock == 0 && started < s.stamp
    requires g in s.flights && s.flights[g] == Flight(7, started, Loading)
    ensures Enabled(s, Advance(g, LoadOk(started)))
    ensures Apply(WORLD, s, Advance(g, LoadOk(started))) ==
              Only(s, g, c, c.pc).(
                entries := s.entries[s.stamp := Entry(7, Some(started), 0, started, started)],
                flights := s.flights[g := Flight(7, started, Made(s.stamp))])
  {
    AdvanceIs(s, g, LoadOk(started));
    hide Apply, Enabled;
  }

  lemma InsertStep(s: Cache, g: nat, c: Call<nat>, started: nat, e: nat)
    requires s.calls == map[g := c] && c.pc == Leading(s.epoch) && s.active == map[7 := g]
    requires g in s.flights && s.flights[g] == Flight(7, started, Made(e))
    requires e in s.entries && s.entries[e].started == started
    ensures Enabled(s, Advance(g, Insert))
    ensures Apply(WORLD, s, Advance(g, Insert)) ==
              Only(s, g, c, Holding(s.epoch, e, true)).(
                slots := s.slots[7 := e], latest := s.latest[7 := started], active := map[],
                flights := s.flights[g := Flight(7, started, Inserted(e))])
  {
    AdvanceIs(s, g, Insert);
    hide Apply, Enabled;
    MovesTo(s, g, c, Holding(s.epoch, e, true));
    assert s.active - {7} == map[];
    hide Take;
  }

  lemma CheckStep(s: Cache, g: nat, c: Call<nat>, e: nat)
    requires s.calls == map[g := c] && c.key == 7 && c.readClock == 0 && c.pc == Holding(s.epoch, e, true)
    ensures Enabled(s, Advance(g, CheckEpoch))
    ensures Apply(WORLD, s, Advance(g, CheckEpoch)) ==
              s.(stamp := s.stamp + 1, calls := map[], answers := s.answers + [Return(7, g, 0, s.stamp, Fetched(e))])
  {
    AdvanceIs(s, g, CheckEpoch);
    hide Apply, Enabled;
  }

  lemma StaleStep(s: Cache, g: nat, c: Call<nat>, e: nat)
    requires s.calls == map[g := c] && c.key == 7 && c.readClock == 0 && c.pc == Begun
    requires Slot(s, 7) == Some(e) && e in s.entries && s.entries[e].value.Some? && s.entries[e].fetchedAt == 0
    ensures Enabled(s, Advance(g, Lookup))
    ensures Apply(WORLD, s, Advance(g, Lookup)) ==
              Only(s, g, c, StaleHit(e)).(metrics := s.metrics.(staleHits := s.metrics.staleHits + 1))
  {
    AdvanceIs(s, g, Lookup);
    hide Apply, Enabled;
    MovesTo(s, g, c, StaleHit(e));
    hide Take;
  }

  lemma CasStep(s: Cache, g: nat, c: Call<nat>, e: nat)
    requires s.calls == map[g := c] && c.pc == StaleHit(e) && e !in s.flags
    ensures Enabled(s, Advance(g, Cas))
    ensures Apply(WORLD, s, Advance(g, Cas)) == Only(s, g, c, WonCas(e)).(flags := s.flags + {e})
  {
    AdvanceIs(s, g, Cas);
    hide Apply, Enabled;
    MovesTo(s, g, c, WonCas(e));
    hide Take;
  }

  lemma SpawnStep(s: Cache, g: nat, c: Call<nat>, e: nat)
    requires s.calls == map[g := c] && c.key == 7 && c.readClock == 0 && c.pc == WonCas(e)
    ensures Enabled(s, Advance(g, Spawn))
    ensures Apply(WORLD, s, Advance(g, Spawn)) ==
              s.(stamp := s.stamp + 1, calls := map[],
                 refreshes := s.refreshes[s.stamp := Refresh(7, e, s.epoch, Spawned)],
                 answers := s.answers + [Return(7, g, 0, s.stamp, Served(e))])
  {
    AdvanceIs(s, g, Spawn);
    hide Apply, Enabled;
  }

  // ---- A refresh of key 7. ----

  lemma PhaseStep(s: Cache, r: nat, rf: Refresh<nat, nat>, step: RefreshStep, phase: RefreshPhase<nat>)
    requires r in s.refreshes && s.refreshes[r] == rf && rf.key == 7
    requires match phase
             case Running(started) => step == Start && rf.phase == Spawned && started == s.stamp
             case Loaded(load) =>
               step == Receive(load.started) && rf.phase == Running(load.started) && load.started <= s.stamp &&
               load == Load(load.started, load.started, Some(load.started))
             case EpochChecked(load) => step == RecheckEpoch && rf.phase == Loaded(load) && rf.epochBefore == s.epoch
             case Confirmed(load) =>
               step == RecheckSlot && rf.phase == EpochChecked(load) && Slot(s, 7) == Some(rf.from)
             case _ => false
    ensures Enabled(s, Refreshing(r, step))
    ensures Apply(WORLD, s, Refreshing(r, step)) ==
              s.(stamp := s.stamp + 1, refreshes := s.refreshes[r := rf.(phase := phase)])
  {
    hide CallDo, CallCan;
  }

  lemma WriteBackStep(s: Cache, r: nat, rf: Refresh<nat, nat>, load: Load<nat>)
    requires r in s.refreshes && s.refreshes[r] == rf && rf.key == 7 && rf.phase == Confirmed(load) && s.clock == 0
    ensures Enabled(s, Refreshing(r, WriteBack))
    ensures Apply(WORLD, s, Refreshing(r, WriteBack)) ==
              s.(stamp := s.stamp + 1, refreshes := s.refreshes[r := rf.(phase := Exiting)],
                 entries := s.entries[s.stamp := Entry(7, load.value, 0, load.started, load.readAt)],
                 slots := s.slots[7 := s.stamp], latest := s.latest[7 := load.started],
                 metrics := s.metrics.(refreshSuccess := s.metrics.refreshSuccess + 1))
  {
    hide CallDo, CallCan;
  }

  // ---- The steps in a row. ----

  ghost predicate Reached(states: seq<Cache>, events: seq<Change>, s: Cache) {
    |states| == |events| + 1 && IsRun(WORLD, states, events) && states[|states| - 1] == s
  }

  lemma Then(states: seq<Cache>, events: seq<Change>, s: Cache, ev: Change)
    returns (states': seq<Cache>, events': seq<Change>, t: Cache)
    requires Reached(states, events, s) && Enabled(s, ev)
    ensures Reached(states', events', t) && t == Apply(WORLD, s, ev)
    ensures states' == states + [t] && events' == events + [ev]
  {
    hide Enabled, Apply, Init;
    t := Apply(WORLD, s, ev);
    states', events' := states + [t], events + [ev];
    forall i | 0 <= i < |events'|
      ensures Enabled(states'[i], events'[i]) && states'[i + 1] == Apply(WORLD, states'[i], events'[i])
    {
      if i < |events| {
        assert Enabled(states[i], events[i]);
      }
    }
  }

  /** A call misses on key 7 and is ready to load it. */
  lemma Miss(states: seq<Cache>, events: seq<Change>, s: Cache)
    returns (states': seq<Cache>, events': seq<Change>, t: Cache, c: Call<nat>)
    requires Reached(states, events, s) && s.calls == map[] && s.clock == 0 && 7 !in s.slots
    ensures Reached(states', events', t) && c.key == 7 && c.readClock == 0
    ensures t == s.(stamp := s.stamp + 4, calls := map[s.stamp := c.(pc := Ready(s.epoch))],
                    metrics := s.metrics.(calls := s.metrics.calls + 1, misses := s.metrics.misses + 1))
  {
    hide Enabled, Apply, Reached;
    var g := s.stamp;
    c := BeginStep(s);
    states', events', t := Then(states, events, s, Begin(7));
    MissStep(t, g, c);
    states', events', t := Then(states', events', t, Advance(g, Lookup));
    DropStep(t, g, t.calls[g]);
    states', events', t := Then(states', events', t, Advance(g, DropCurrent));
    CaptureStep(t, g, t.calls[g]);
    states', events', t := Then(states', events', t, Advance(g, Capture));
  }

  /** A call misses on key 7, loads it and returns. */
  lemma HardMiss(states: seq<Cache>, events: seq<Change>, s: Cache)
    returns (states': seq<Cache>, events': seq<Change>, t: Cache)
    requires Reached(states, events, s) && s.calls == map[] && s.clock == 0 && 7 !in s.slots && s.active == map[]
    ensures Reached(states', events', t)
    ensures t == var g := s.stamp;
                 s.(stamp := g + 8, flights := s.flights[g := Flight(7, g + 4, Inserted(g + 5))],
                    entries := s.entries[g + 5 := Entry(7, Some(g + 4), 0, g + 4, g + 4)],
                    slots := s.slots[7 := g + 5], latest := s.latest[7 := g + 4],
                    answers := s.answers + [Return(7, g, 0, g + 7, Fetched(g + 5))],
                    metrics := s.metrics.(calls := s.metrics.calls + 1, misses := s.metrics.misses + 1))
  {
    hide Enabled, Apply, Reached;
    var c;
    states', events', t, c := Miss(states, events, s);
    states', events', t := Fly(states', events', t, s.stamp, t.calls[s.stamp]);
    states', events', t := Land(states', events', t, s.stamp, t.calls[s.stamp], s.stamp + 4, s.stamp + 5);
  }

  /** It loads the key. */
  lemma Fly(states: seq<Cache>, events: seq<Change>, s: Cache, g: nat, c: Call<nat>)
    returns (states': seq<Cache>, events': seq<Change>, t: Cache)
    requires Reached(states, events, s) && s.calls == map[g := c] && c.key == 7 && c.pc == Ready(s.epoch)
    requires s.clock == 0 && 7 !in s.slots && s.active == map[]
    ensures Reached(states', events', t)
    ensures t == s.(stamp := s.stamp + 2, calls := map[g := c.(pc := Leading(s.epoch))], active := map[7 := g],
                    flights := s.flights[g := Flight(7, s.stamp, Made(s.stamp + 1))],
                    entries := s.entries[s.stamp + 1 := Entry(7, Some(s.stamp), 0, s.stamp, s.stamp)])
  {
    hide Enabled, Apply, Reached;
    LeadStep(s, g, c);
    states', events', t := Then(states, events, s, Advance(g, TryGetWith));
    LoadStep(t, g, t.calls[g], s.stamp);
    states', events', t := Then(states', events', t, Advance(g, LoadOk(s.stamp)));
  }

  /** It inserts what it loaded and answers. */
  lemma Land(states: seq<Cache>, events: seq<Change>, s: Cache, g: nat, c: Call<nat>, started: nat, e: nat)
    returns (states': seq<Cache>, events': seq<Change>, t: Cache)
    requires Reached(states, events, s) && s.calls == map[g := c] && c.key == 7 && c.readClock == 0
    requires c.pc == Leading(s.epoch) && s.active == map[7 := g]
    requires g in s.flights && s.flights[g] == Flight(7, started, Made(e))
    requires e in s.entries && s.entries[e].started == started
    ensures Reached(states', events', t)
    ensures t == s.(stamp := s.stamp + 2, calls := map[], active := map[],
                    slots := s.slots[7 := e], latest := s.latest[7 := started],
                    flights := s.flights[g := Flight(7, started, Inserted(e))],
                    answers := s.answers + [Return(7, g, 0, s.stamp + 1, Fetched(e))])
  {
    hide Enabled, Apply, Reached;
    InsertStep(s, g, c, started, e);
    states', events', t := Then(states, events, s, Advance(g, Insert));
    CheckStep(t, g, t.calls[g], e);
    states', events', t := Then(states', events', t, Advance(g, CheckEpoch));
  }

  /** A call finds the entry of key 7 stale, returns it and spawns a refresh. */
  lemma StaleRead(states: seq<Cache>, events: seq<Change>, s: Cache, e: nat)
    returns (states': seq<Cache>, events': seq<Change>, t: Cache)
    requires Reached(states, events, s) && s.calls == map[] && s.clock == 0 && e !in s.flags
    requires Slot(s, 7) == Some(e) && e in s.entries && s.entries[e].value.Some? && s.entries[e].fetchedAt == 0
    ensures Reached(states', events', t)
    ensures states <= states' && events <= events'
    ensures t == var g := s.stamp;
                 s.(stamp := g + 4, flags := s.flags + {e},
                    refreshes := s.refreshes[g + 3 := Refresh(7, e, s.epoch, Spawned)],
                    answers := s.answers + [Return(7, g, 0, g + 3, Served(e))],
                    metrics := s.metrics.(calls := s.metrics.calls + 1, staleHits := s.metrics.staleHits + 1))
  {
    hide Enabled, Apply, Reached;
    var g := s.stamp;
    var c := BeginStep(s);
    states', events', t := Then(states, events, s, Begin(7));
    StaleStep(t, g, c, e);
    states', events', t := Then(states', events', t, Advance(g, Lookup));
    CasStep(t, g, t.calls[g], e);
    states', events', t := Then(states', events', t, Advance(g, Cas));
    SpawnStep(t, g, t.calls[g], e);
    states', events', t := Then(states', events', t, Advance(g, Spawn));
  }

  /** The refresh spawned last loads and passes both of its checks. */
  lemma Confirm(states: seq<Cache>, events: seq<Change>, s: Cache, r: nat, rf: Refresh<nat, nat>)
    returns (states': seq<Cache>, events': seq<Change>, t: Cache)
    requires Reached(states, events, s) && r in s.refreshes && s.refreshes[r] == rf && rf.key == 7
    requires rf.phase == Spawned && rf.epochBefore == s.epoch && Slot(s, 7) == Some(rf.from)
    ensures Reached(states', events', t)
    ensures t == var load := Load(s.stamp, s.stamp, Some(s.stamp));
                 s.(stamp := s.stamp + 4, refreshes := s.refreshes[r := rf.(phase := Confirmed(load))])
  {
    hide Enabled, Apply, Reached;
    var load := Load(s.stamp, s.stamp, Some(s.stamp));
    PhaseStep(s, r, rf, Start, Running(s.stamp));
    states', events', t := Then(states, events, s, Refreshing(r, Start));
    PhaseStep(t, r, t.refreshes[r], Receive(s.stamp), Loaded(load));
    states', events', t := Then(states', events', t, Refreshing(r, Receive(s.stamp)));
    PhaseStep(t, r, t.refreshes[r], RecheckEpoch, EpochChecked(load));
    states', events', t := Then(states', events', t, Refreshing(r, RecheckEpoch));
    PhaseStep(t, r, t.refreshes[r], RecheckSlot, Confirmed(load));
    states', events', t := Then(states', events', t, Refreshing(r, RecheckSlot));
  }

  const CONFIRMED: Refresh<nat, nat> := Refresh(7, 6, 0, Confirmed(Load(13, 13, Some(13))))

  /** A miss, a stale hit, and the refresh it spawned has passed its checks. */
  lemma AboutToInsert() returns (states: seq<Cache>, events: seq<Change>, s: Cache)
    ensures Reached(states, events, s)
    ensures s.stamp == 17 && s.clock == 0 && s.epoch == 0 && s.calls == map[] && s.active == map[]
    ensures s.pending == map[] && s.done == [] && s.latest == map[7 := 5] && s.flags == {6}
    ensures s.slots == map[7 := 6] && s.entries == map[6 := Entry(7, Some(5), 0, 5, 5)]
    ensures s.refreshes == map[12 := CONFIRMED]
    ensures s.answers == [Return(7, 1, 0, 8, Fetched(6)), Return(7, 9, 0, 12, Served(6))]
  {
    hide Enabled, Apply, IsRun;
    states, events, s := [Init()], [], Init();
    assert Reached(states, events, s) by { Begins(); }
    states, events, s := HardMiss(states, events, s);
    states, events, s := StaleRead(states, events, s, 6);
    states, events, s := Confirm(states, events, s, 12, s.refreshes[12]);
  }

  lemma Begins()
    ensures IsRun(WORLD, [Init()], [])
  {
    hide Enabled, Apply;
  }

  /**
  An invalidation of key 7 begins and completes before the refresh inserts: the slot ends up
  holding a load the invalidation covers and postdates, and no call will remove it.
  */
  lemma InvalidationUndone() returns (states: seq<Cache>, events: seq<Change>, s: Cache)
    ensures Reached(states, events, s)
    ensures s.calls == map[] && |s.done| == 1 && 7 in s.slots && s.slots[7] in s.entries
    ensures Outdated(s, 7, s.done[0]) && !LoadPending(s, 7)
    ensures !NothingUndone(states, events, |events|)
  {
    hide Enabled, Apply, IsRun;
    states, events, s := AboutToInsert();
    InvalidateBeginStep(s);
    states, events, s := Then(states, events, s, InvalidateBegin(OneKey(7)));
    InvalidateApplyStep(s);
    states, events, s := Then(states, events, s, InvalidateApply(17));
    ghost var before, m := s, |events|;
    WriteBackStep(s, 12, CONFIRMED, CONFIRMED.phase.load);
    states, events, s := Then(states, events, s, Refreshing(12, WriteBack));
    assert states[m] == before && events[m] == Refreshing(12, WriteBack);
    assert before.done[0].scope.Covers(7, Some(13)) && 13 <= before.done[0].at;
    assert Undoes(before, Refreshing(12, WriteBack));
  }

  lemma InvalidateBeginStep(s: Cache)
    requires s.stamp == 17 && s.epoch == 0 && s.pending == map[]
    ensures Enabled(s, InvalidateBegin(OneKey(7)))
    ensures Apply(WORLD, s, InvalidateBegin(OneKey(7))) ==
              s.(stamp := 18, epoch := 1, lastBump := 17, pending := map[17 := OneKey(7)])
  {
    hide CallDo, CallCan, RefreshDo, RefreshCan;
  }

  lemma InvalidateApplyStep(s: Cache)
    requires s.stamp == 18 && s.pending == map[17 := OneKey(7)] && s.slots == map[7 := 6] && 6 in s.entries
    ensures Enabled(s, InvalidateApply(17))
    ensures Apply(WORLD, s, InvalidateApply(17)) ==
              s.(stamp := 19, slots := map[], pending := map[], done := s.done + [Invalidation(OneKey(7), 17)],
                 metrics := CountInvalidation(s.metrics))
  {
    hide CallDo, CallCan, RefreshDo, RefreshCan;
    assert Covered(s, OneKey(7)) == {7};
  }

  /**
  The entry is evicted and loaded anew before the refresh inserts: a call that began after another
  had answered then answers with the older load.
  */
  lemma OlderReadLater() returns (states: seq<Cache>, events: seq<Change>, s: Cache)
    ensures Reached(states, events, s)
    ensures |s.answers| == 4 && !InOrder(s, s.answers[2], s.answers[3])
    ensures !AllInTurn(states, events, |events|)
  {
    hide Enabled, Apply, IsRun;
    states, events, s := AboutToInsert();
    EvictStep(s);
    states, events, s := Then(states, events, s, Evict(7));
    states, events, s := HardMiss(states, events, s);
    ghost var before, m := s, |events|;
    WriteBackStep(s, 12, CONFIRMED, CONFIRMED.phase.load);
    states, events, s := Then(states, events, s, Refreshing(12, WriteBack));
    assert states[m] == before && events[m] == Refreshing(12, WriteBack);
    states, events, s := StaleRead(states, events, s, 26);
    assert states[m] == before && events[m] == Refreshing(12, WriteBack);
    assert OutOfTurn(before, Refreshing(12, WriteBack));
  }

  lemma EvictStep(s: Cache)
    ensures Enabled(s, Evict(7))
    ensures Apply(WORLD, s, Evict(7)) == s.(stamp := s.stamp + 1, slots := s.slots - {7})
  {
    hide CallDo, CallCan, RefreshDo, RefreshCan;
  }
}
