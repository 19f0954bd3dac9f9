/**
The cache as an object: one method per atomic operation of the source, assigning the fields that
operation changes, and on top of them `get`, the refresh task and the invalidations with the
control flow they have in the source. `Valid` says that what the object has been through is a run
of the transition system, so every theorem about runs is a theorem about this object.
*/
module SwrCache {
  import opened Wrappers
  import opened SwrModel
  import opened SwrInvariants
  import opened SwrRuns

  lemma RunGrows<K, V>(w: World<K, V>, states: seq<State<K, V>>, events: seq<Event<K, V>>, ev: Event<K, V>)
    requires IsRun(w, states, events) && Enabled(states[|events|], ev)
    ensures IsRun(w, states + [Apply(w, states[|events|], ev)], events + [ev])
  {
    hide Enabled, Apply, Init;
    var states', events' := states + [Apply(w, states[|events|], ev)], events + [ev];
    forall i | 0 <= i < |events'|
      ensures Enabled(states'[i], events'[i]) && states'[i + 1] == Apply(w, states'[i], events'[i])
    {
      if i < |events| {
        assert Enabled(states[i], events[i]);
      }
    }
  }

  /** `t` is `m` with one of the four lookup counters, and only that one, up by one. */
  predicate OneMore(m: Metrics, t: Metrics) {
    || t == m.(hits := m.hits + 1)
    || t == m.(staleHits := m.staleHits + 1)
    || t == m.(misses := m.misses + 1)
    || t == m.(negativeHits := m.negativeHits + 1)
  }

  /** What is left of the map: nothing, all but one key, or what does not satisfy the predicate. */
  ghost function Remainder<K, V>(slots: map<K, nat>, entries: map<nat, Entry<K, V>>, scope: Scope<K, V>): map<K, nat>
    requires forall k :: k in slots ==> slots[k] in entries
  {
    match scope
    case Everything => map[]
    case OneKey(key) => slots - {key}
    case KeysWhere(keys) => map k | k in slots && !keys(k) :: slots[k]
    case ValuesWhere(values) => map k | k in slots && !values(entries[slots[k]].value) :: slots[k]
  }

  lemma RemainderIs<K, V>(slots: map<K, nat>, entries: map<nat, Entry<K, V>>, scope: Scope<K, V>)
    requires forall k :: k in slots ==> slots[k] in entries
    ensures Remainder(slots, entries, scope) ==
            slots - set k | k in slots && slots[k] in entries && scope.Covers(k, entries[slots[k]].value)
  {
  }

  class Cache<K(==), V> {
    const world: World<K, V>

    var stamp: nat
    var clock: nat
    var epoch: nat
    var slots: map<K, nat>
    var entries: map<nat, Entry<K, V>>
    var flags: set<nat>
    var calls: map<nat, Call<K>>
    var flights: map<nat, Flight<K>>
    var active: map<K, nat>
    var refreshes: map<nat, Refresh<K, V>>
    var pending: map<nat, Scope<K, V>>
    var done: seq<Invalidation<K, V>>
    var lastBump: nat
    var latest: map<K, nat>
    var answers: seq<Return<K>>
    var metrics: Metrics

    ghost var states: seq<State<K, V>>
    ghost var events: seq<Event<K, V>>

    function Now(): State<K, V>
      reads this
    {
      State(stamp, clock, epoch, slots, entries, flags, calls, flights, active, refreshes,
            pending, done, lastBump, latest, answers, metrics)
    }

    ghost predicate Valid()
      reads this
    {
      IsRun(world, states, events) && states[|events|] == Now()
    }

    constructor (w: World<K, V>)
      ensures Valid() && world == w && Now() == Init()
    {
      world := w;
      stamp, clock, epoch, slots, entries, flags, calls, flights, active, refreshes :=
        1, 0, 0, map[], map[], {}, map[], map[], map[], map[];
      pending, done, lastBump, latest, answers, metrics :=
        map[], [], 0, map[], [], Metrics(0, 0, 0, 0, 0, 0, 0, 0, 0, 0, 0, 0);
      states, events := [Init()], [];
    }

    // ---- The atomic operations of one call. ----

    /** A call moves on or answers. */
    method Proceed(g: nat, move: Move)
      requires g in calls
      modifies this`calls, this`answers
      ensures Now() == Take(old(Now()), g, move)
    {
      match move {
        case Goto(pc) => calls := calls[g := calls[g].(pc := pc)];
        case Answer(outcome) =>
          answers := answers + [Return(calls[g].key, g, calls[g].readClock, stamp, outcome)];
          calls := calls - {g};
      }
    }

    method Enter(k: K)
      modifies this`calls, this`metrics
      ensures Now() == DoBegin(old(Now()), k)
    {
      var floor := if k in latest then latest[k] else 0;
      calls := calls[stamp := Call(k, clock, floor, Begun)];
      metrics := metrics.(calls := metrics.calls + 1);
    }

    /** The lookup. One counter moves, told by the entry's kind and age; an answer is within its lifetime. */
    method Find(g: nat)
      requires CallCan(Now(), g, Lookup)
      modifies this`calls, this`answers, this`metrics
      ensures Now() == DoLookup(world, old(Now()), g)
      ensures OneMore(old(metrics), metrics)
      ensures var k := old(calls)[g].key;
              k !in slots ==> metrics.misses > old(metrics).misses && answers == old(answers)
      ensures var c := old(calls)[g];
              c.key in slots ==>
                var en, config := entries[slots[c.key]], world.config;
                var young := en.value.Some? && Within(c.readClock, en.fetchedAt, config.softTtl);
                var usable := en.value.Some? && Within(c.readClock, en.fetchedAt, config.ttl);
                var negative := en.value.None? && Within(c.readClock, en.fetchedAt, config.negativeTtl);
                && (metrics.hits > old(metrics).hits <==> usable && young)
                && (metrics.staleHits > old(metrics).staleHits <==> usable && !young)
                && (metrics.negativeHits > old(metrics).negativeHits <==> negative)
                && (metrics.misses > old(metrics).misses <==> !usable && !negative)
                && answers == (if (usable && young) || negative
                               then old(answers) + [Return(c.key, g, c.readClock, stamp, Served(slots[c.key]))]
                               else old(answers))
    {
      var c, m := calls[g], metrics;
      var move, counted := Goto(Missed), m.(misses := m.misses + 1);
      if c.key in slots {
        var e := slots[c.key];
        match Judge(world.config, c.readClock, entries[e]) {
          case Fresh => move, counted := Answer(Served(e)), m.(hits := m.hits + 1);
          case Negative => move, counted := Answer(Served(e)), m.(negativeHits := m.negativeHits + 1);
          case Stale => move, counted := Goto(StaleHit(e)), m.(staleHits := m.staleHits + 1);
          case Expired =>
        }
      }
      metrics := counted;
      Proceed(g, move);
    }

    /** The compare-exchange on the entry's flag: set afterwards, and the call skipped iff it was set before. */
    method ClaimRefresh(g: nat)
      requires CallCan(Now(), g, Cas)
      modifies this`calls, this`answers, this`flags, this`metrics
      ensures Now() == DoCas(old(Now()), g)
      ensures var e := old(calls)[g].pc.entry;
              && flags == old(flags) + {e}
              && (e in old(flags) <==> metrics.skippedInflight == old(metrics).skippedInflight + 1)
              && (e !in old(flags) <==> g in calls && calls[g].pc == WonCas(e))
              && (e !in old(flags) ==> metrics == old(metrics))
    {
      var e := calls[g].pc.entry;
      if e in flags {
        metrics := metrics.(skippedInflight := metrics.skippedInflight + 1);
        Proceed(g, Answer(Served(e)));
        assert flags == flags + {e};
      } else {
        flags := flags + {e};
        Proceed(g, Goto(WonCas(e)));
      }
    }

    method SpawnRefresh(g: nat)
      requires CallCan(Now(), g, Spawn)
      modifies this`calls, this`answers, this`refreshes
      ensures Now() == DoSpawn(old(Now()), g)
    {
      refreshes := refreshes[stamp := Refresh(calls[g].key, calls[g].pc.entry, epoch, Spawned)];
      Proceed(g, Answer(Served(calls[g].pc.entry)));
    }

    method DropSlot(g: nat)
      requires CallCan(Now(), g, DropCurrent)
      modifies this`calls, this`answers, this`slots
      ensures Now() == DoDropCurrent(old(Now()), g)
    {
      slots := slots - {calls[g].key};
      Proceed(g, Goto(Dropped));
    }

    method TryGet(g: nat)
      requires CallCan(Now(), g, TryGetWith)
      modifies this`calls, this`answers, this`flights, this`active
      ensures Now() == DoTryGetWith(old(Now()), g)
    {
      var k, before := calls[g].key, calls[g].pc.epochBefore;
      if k in slots {
        Proceed(g, Goto(Holding(before, slots[k], false)));
      } else if k in active {
        Proceed(g, Goto(Waiting(before, active[k])));
      } else {
        flights, active := flights[g := Flight(k, stamp, Loading)], active[k := g];
        Proceed(g, Goto(Leading(before)));
      }
    }

    method FinishLoad(g: nat, readAt: nat)
      requires CallCan(Now(), g, LoadOk(readAt))
      modifies this`entries, this`flights
      ensures Now() == DoLoadOk(world, old(Now()), g, readAt)
    {
      var f := flights[g];
      entries := entries[stamp := Entry(f.key, world.source(readAt, f.key), clock, f.started, readAt)];
      flights := flights[g := f.(phase := Made(stamp))];
    }

    /** Flight `g` is over. */
    method Land(g: nat, phase: FlightPhase)
      requires g in flights
      modifies this`flights, this`active
      ensures var s := old(Now());
              Now() == s.(flights := s.flights[g := s.flights[g].(phase := phase)],
                          active := s.active - {s.flights[g].key})
    {
      active := active - {flights[g].key};
      flights := flights[g := flights[g].(phase := phase)];
    }

    method Occupy(k: K, e: nat, started: nat)
      modifies this`slots, this`latest
      ensures var s := old(Now()); Now() == s.(slots := s.slots[k := e], latest := s.latest[k := started])
    {
      slots, latest := slots[k := e], latest[k := started];
    }

    method AbandonLoad(g: nat, phase: FlightPhase, outcome: Outcome)
      requires CallCan(Now(), g, LoadErr)
      modifies this`calls, this`answers, this`flights, this`active
      ensures Now() == DoLoadGone(old(Now()), g, phase, outcome)
    {
      Land(g, phase);
      Proceed(g, Answer(outcome));
    }

    method InsertLoaded(g: nat)
      requires CallCan(Now(), g, Insert)
      modifies this`calls, this`answers, this`slots, this`latest, this`flights, this`active
      ensures Now() == DoInsert(old(Now()), g)
    {
      var e := flights[g].phase.entry;
      Occupy(flights[g].key, e, entries[e].started);
      Land(g, Inserted(e));
      Proceed(g, Goto(Holding(calls[g].pc.epochBefore, e, true)));
    }

    method Awaken(g: nat)
      requires CallCan(Now(), g, Wake)
      modifies this`calls, this`answers
      ensures Now() == Take(old(Now()), g, WakeMove(old(Now()), g))
    {
      var pc := calls[g].pc;
      var phase := flights[pc.flight].phase;
      if phase.Inserted? {
        Proceed(g, Goto(Holding(pc.epochBefore, phase.entry, false)));
      } else if phase.FlightFailed? {
        Proceed(g, Answer(Failed));
      } else {
        Proceed(g, Goto(Ready(pc.epochBefore)));
      }
    }

    /** The call answers with its entry and leaves it cached iff the epoch is the one it noted before the load. */
    method CompareEpoch(g: nat)
      requires CallCan(Now(), g, CheckEpoch)
      modifies this`calls, this`answers
      ensures Now() == Take(old(Now()), g, CheckEpochMove(old(Now()), g))
      ensures var c := old(calls)[g];
              && (epoch == c.pc.epochBefore <==>
                    answers == old(answers) + [Return(c.key, g, c.readClock, stamp, Fetched(c.pc.entry))])
              && (epoch != c.pc.epochBefore <==>
                    g in calls && calls[g].pc == Condemned(c.pc.entry, c.pc.led) && answers == old(answers))
    {
      var pc := calls[g].pc;
      if epoch != pc.epochBefore {
        Proceed(g, Goto(Condemned(pc.entry, pc.led)));
      } else {
        Proceed(g, Answer(Fetched(pc.entry)));
      }
    }

    method DropLoaded(g: nat)
      requires CallCan(Now(), g, Evacuate)
      modifies this`calls, this`answers, this`slots, this`metrics
      ensures Now() == DoEvacuate(old(Now()), g)
    {
      slots := slots - {calls[g].key};
      metrics := metrics.(droppedEpoch := metrics.droppedEpoch + 1, hardDrops := metrics.hardDrops + 1);
      Proceed(g, Answer(Fetched(calls[g].pc.entry)));
    }

    // ---- The atomic operations of a refresh. ----

    method Turn(r: nat, phase: RefreshPhase<V>)
      requires r in refreshes
      modifies this`refreshes
      ensures Now() == SetPhase(old(Now()), r, phase)
    {
      refreshes := refreshes[r := refreshes[r].(phase := phase)];
    }

    /** The refresh goes on iff the epoch is the one it was spawned at; otherwise one drop is counted. */
    method GuardEpoch(r: nat)
      requires RefreshCan(Now(), r, RecheckEpoch)
      modifies this`refreshes, this`metrics
      ensures Now() == DoRecheckEpoch(old(Now()), r)
      ensures r in refreshes
      ensures epoch == refreshes[r].epochBefore <==>
                refreshes[r].phase == EpochChecked(old(refreshes)[r].phase.load) && metrics == old(metrics)
      ensures epoch != refreshes[r].epochBefore <==>
                refreshes[r].phase == Exiting && metrics.droppedEpoch == old(metrics).droppedEpoch + 1
    {
      if epoch != refreshes[r].epochBefore {
        metrics := metrics.(droppedEpoch := metrics.droppedEpoch + 1);
        Turn(r, Exiting);
      } else {
        Turn(r, EpochChecked(refreshes[r].phase.load));
      }
    }

    /** The refresh goes on iff its own entry is in the slot; otherwise one drop is counted. */
    method GuardSlot(r: nat)
      requires RefreshCan(Now(), r, RecheckSlot)
      modifies this`refreshes, this`metrics
      ensures Now() == DoRecheckSlot(old(Now()), r)
      ensures r in refreshes
      ensures refreshes[r].key in slots && slots[refreshes[r].key] == refreshes[r].from <==>
                refreshes[r].phase == Confirmed(old(refreshes)[r].phase.load) && metrics == old(metrics)
      ensures refreshes[r].key in slots ==> slots[refreshes[r].key] != refreshes[r].from <==>
                refreshes[r].phase == Exiting && metrics.droppedEpoch == old(metrics).droppedEpoch + 1
    {
      var rf := refreshes[r];
      if rf.key in slots && slots[rf.key] == rf.from {
        Turn(r, Confirmed(rf.phase.load));
      } else {
        metrics := metrics.(droppedEpoch := metrics.droppedEpoch + 1);
        Turn(r, Exiting);
      }
    }

    method ReplaceSlot(r: nat)
      requires RefreshCan(Now(), r, WriteBack)
      modifies this`refreshes, this`entries, this`slots, this`latest, this`metrics
      ensures Now() == DoWriteBack(old(Now()), r)
    {
      var k, load := refreshes[r].key, refreshes[r].phase.load;
      entries := entries[stamp := Entry(k, load.value, clock, load.started, load.readAt)];
      metrics := metrics.(refreshSuccess := metrics.refreshSuccess + 1);
      Occupy(k, stamp, load.started);
      Turn(r, Exiting);
    }

    /** The drop guard. */
    method ClearFlag(r: nat)
      requires RefreshCan(Now(), r, Exit)
      modifies this`refreshes, this`flags
      ensures Now() == DoExit(old(Now()), r)
    {
      flags := flags - {refreshes[r].from};
      refreshes := refreshes - {r};
    }

    // ---- The atomic operations of an invalidation. ----

    method Count(now: bool)
      modifies this`metrics
      ensures var s := old(Now());
              Now() == s.(metrics := if now then CountInvalidation(s.metrics) else s.metrics)
    {
      if now {
        metrics := metrics.(invalidations := metrics.invalidations + 1);
      }
    }

    method AdvanceEpoch(scope: Scope<K, V>)
      modifies this`epoch, this`lastBump, this`pending, this`metrics
      ensures Now() == DoInvalidateBegin(old(Now()), scope)
    {
      epoch, lastBump := epoch + 1, stamp;
      Count(scope.ByPredicate());
      pending := pending[stamp := scope];
    }

    /** No slot is left that the scope covers, and every slot that is gone was covered. */
    method RemoveCovered(i: nat)
      requires i in pending
      modifies this`slots, this`pending, this`done, this`metrics
      ensures Now() == DoInvalidateApply(old(Now()), i)
      ensures forall k :: k in slots ==>
                && k in old(slots) && slots[k] == old(slots)[k]
                && (slots[k] in entries ==> !old(pending)[i].Covers(k, entries[slots[k]].value))
      ensures forall k :: k in old(slots) && k !in slots ==>
                old(slots)[k] in entries && old(pending)[i].Covers(k, entries[old(slots)[k]].value)
      ensures (forall k :: k in old(slots) ==> old(slots)[k] in entries) ==>
                slots == Remainder(old(slots), entries, old(pending)[i])
    {
      var scope := pending[i];
      ghost var before := slots;
      slots := slots - set k | k in slots && slots[k] in entries && scope.Covers(k, entries[slots[k]].value);
      if forall k :: k in before ==> before[k] in entries { RemainderIs(before, entries, scope); }
      hide Remainder;
      Count(!scope.ByPredicate());
      pending, done := pending - {i}, done + [Invalidation(scope, i)];
    }

    // ---- Any event. ----

    method CallStep(g: nat, step: SwrModel.CallStep)
      requires CallCan(Now(), g, step)
      modifies this
      ensures Now() == CallDo(world, old(Now()), g, step)
      ensures states == old(states) && events == old(events)
    {
      match step {
        case Lookup => Find(g);
        case Cas => ClaimRefresh(g);
        case Spawn => SpawnRefresh(g);
        case DropCurrent => DropSlot(g);
        case Capture => Proceed(g, Goto(Ready(epoch)));
        case TryGetWith => TryGet(g);
        case LoadOk(readAt) => FinishLoad(g, readAt);
        case LoadErr => AbandonLoad(g, FlightFailed, Failed);
        case LoadPanic => AbandonLoad(g, FlightPanicked, Panicked);
        case Insert => InsertLoaded(g);
        case Wake => Awaken(g);
        case CheckEpoch => CompareEpoch(g);
        case Evacuate => DropLoaded(g);
      }
    }

    method RefreshStep(r: nat, step: SwrModel.RefreshStep)
      requires RefreshCan(Now(), r, step)
      modifies this
      ensures Now() == RefreshDo(world, old(Now()), r, step)
      ensures states == old(states) && events == old(events)
    {
      match step {
        case Start => Turn(r, Running(stamp));
        case Receive(readAt) =>
          var rf := refreshes[r];
          Turn(r, Loaded(Load(rf.phase.started, readAt, world.source(readAt, rf.key))));
        case ReceiveErr =>
          metrics := metrics.(refreshFailure := metrics.refreshFailure + 1);
          Turn(r, Exiting);
        case Panic =>
          metrics := metrics.(panics := metrics.panics + 1);
          Turn(r, Exiting);
        case RecheckEpoch => GuardEpoch(r);
        case RecheckSlot => GuardSlot(r);
        case WriteBack => ReplaceSlot(r);
        case Exit => ClearFlag(r);
      }
    }

    /** The fields changed by `ev`, the stamp and the record of the run not yet. */
    method Perform(ev: Event<K, V>)
      requires Enabled(Now(), ev)
      modifies this
      ensures Now() == Effect(world, old(Now()), ev)
      ensures states == old(states) && events == old(events)
    {
      match ev {
        case Tick(amount) => clock := clock + amount;
        case Begin(k) => Enter(k);
        case Advance(g, step) => CallStep(g, step);
        case Refreshing(r, step) => RefreshStep(r, step);
        case InvalidateBegin(scope) => AdvanceEpoch(scope);
        case InvalidateApply(i) => RemoveCovered(i);
        case InvalidateFail(i) => pending := pending - {i};
        case Evict(k) => slots := slots - {k};
      }
    }

    method Step(ev: Event<K, V>)
      requires Valid() && Enabled(Now(), ev)
      modifies this
      ensures Valid() && Now() == Apply(world, old(Now()), ev)
      ensures events == old(events) + [ev]
    {
      hide Enabled, Effect;
      ghost var s := Now();
      Perform(ev);
      stamp := stamp + 1;
      RunGrows(world, states, events, ev);
      states, events := states + [Now()], events + [ev];
    }
  }
}
