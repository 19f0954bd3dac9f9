/**
`get`, `load_single_flight`, the refresh task and the invalidations with the control flow of the
source, on the cache object. At every point where other tasks may run, they do: `polls` lists what
they attempt each time, and any attempt that is not possible then is passed over. A call whose
future is still waiting when `polls` ends answers `Pending`.
*/
module SwrGet {
  import opened Wrappers
  import opened SwrModel
  import opened SwrInvariants
  import opened SwrMonotone
  import opened SwrRuns
  import opened SwrCache

  datatype Reply<V> = Value(value: Option<V>) | LoaderFailed | LoaderPanicked | Pending

  /** How a loader run by the call or the refresh itself will end. */
  datatype Plan = Reads(at: nat) | Errs | Panics

  /** Whose step an event is. */
  predicate IsOf<K, V>(ev: Event<K, V>, id: nat) {
    match ev
    case Advance(g, _) => g == id
    case Refreshing(r, _) => r == id
    case InvalidateApply(i) => i == id
    case InvalidateFail(i) => i == id
    case _ => false
  }

  /** What the call, task or invalidation `id` knows of its own survives everybody else's steps. */
  ghost predicate KeptFor<K, V>(s: State<K, V>, t: State<K, V>, id: nat) {
    && s.stamp <= t.stamp && s.epoch <= t.epoch && s.answers <= t.answers
    && (forall e :: e in s.entries ==> e in t.entries && t.entries[e] == s.entries[e])
    && (id in s.calls ==> id in t.calls && t.calls[id] == s.calls[id])
    && (id in s.flights ==> id in t.flights && t.flights[id] == s.flights[id])
    && (id in s.refreshes ==> id in t.refreshes && t.refreshes[id] == s.refreshes[id])
    && (id in s.pending ==> id in t.pending && t.pending[id] == s.pending[id])
  }

  lemma OthersLeave<K, V>(w: World<K, V>, s: State<K, V>, ev: Event<K, V>, id: nat)
    requires Shape(w, s) && Enabled(s, ev) && !IsOf(ev, id) && id < s.stamp
    ensures KeptFor(s, Apply(w, s, ev), id)
  {
    Unused(w, s);
    hide Shape, CallDo, RefreshDo, CallCan, RefreshCan, KeptFor;
    match ev
    case Advance(g, step) => OtherCalls(w, s, g, step, id);
    case Refreshing(r, step) => OtherRefreshes(w, s, r, step, id);
    case _ => OtherEvents(w, s, ev, id);
  }

  lemma OtherEvents<K, V>(w: World<K, V>, s: State<K, V>, ev: Event<K, V>, id: nat)
    requires Enabled(s, ev) && !IsOf(ev, id) && id < s.stamp && !ev.Advance? && !ev.Refreshing?
    ensures KeptFor(s, Apply(w, s, ev), id)
  {
    hide CallDo, RefreshDo, CallCan, RefreshCan;
  }

  lemma OtherCalls<K, V>(w: World<K, V>, s: State<K, V>, g: nat, step: CallStep, id: nat)
    requires CallCan(s, g, step) && g != id && id < s.stamp && s.stamp !in s.entries
    ensures KeptFor(s, Next(CallDo(w, s, g, step)), id)
  {
    CallFrame(w, s, g, step);
    OwnLoads(w, s, g, step, id);
    hide CallDo, StepMove;
  }

  lemma OwnLoads<K, V>(w: World<K, V>, s: State<K, V>, g: nat, step: CallStep, id: nat)
    requires CallCan(s, g, step) && g != id && id < s.stamp && s.stamp !in s.entries
    ensures var t := CallDo(w, s, g, step);
            && (forall e :: e in s.entries ==> e in t.entries && t.entries[e] == s.entries[e])
            && (id in s.flights ==> id in t.flights && t.flights[id] == s.flights[id])
            && (id in s.refreshes ==> id in t.refreshes && t.refreshes[id] == s.refreshes[id])
  {
    hide LookupMove, LookupMetrics;
  }

  lemma OtherRefreshes<K, V>(w: World<K, V>, s: State<K, V>, r: nat, step: RefreshStep, id: nat)
    requires RefreshCan(s, r, step) && r != id && id < s.stamp && s.stamp !in s.entries
    ensures KeptFor(s, Next(RefreshDo(w, s, r, step)), id)
  {
  }

  // ---- One step of one's own. ----

  /** Other tasks run; `id` waits. */
  method Pause<K, V>(c: Cache<K, V>, polls: seq<seq<Event<K, V>>>, i: nat, id: nat)
    requires c.Valid() && id < c.stamp
    modifies c
    ensures c.Valid() && old(c.events) <= c.events && KeptFor(old(c.Now()), c.Now(), id)
    ensures |polls| <= i ==> c.Now() == old(c.Now())
  {
    var others := if i < |polls| then polls[i] else [];
    for j := 0 to |others|
      invariant c.Valid() && old(c.events) <= c.events && KeptFor(old(c.Now()), c.Now(), id)
      invariant others == [] ==> c.Now() == old(c.Now())
    {
      if Enabled(c.Now(), others[j]) && !IsOf(others[j], id) {
        ghost var s := c.Now();
        EveryState(c.world, c.states, c.events, |c.events|);
        hide Enabled, Apply, IsRun;
        OthersLeave(c.world, s, others[j], id);
        c.Step(others[j]);
      }
    }
  }

  /** Call `g` takes `step`; `answer` tells whether that ended it. */
  method Go<K, V>(c: Cache<K, V>, g: nat, step: CallStep) returns (answer: Option<Outcome>)
    requires c.Valid() && CallCan(c.Now(), g, step)
    modifies c
    ensures c.Valid() && old(c.events) < c.events && c.stamp == old(c.stamp) + 1
    ensures c.Now() == Next(CallDo(c.world, old(c.Now()), g, step))
    ensures match StepMove(c.world, old(c.Now()), g, step)
            case Goto(pc) => answer == None && g in c.calls && c.calls[g] == old(c.calls)[g].(pc := pc)
            case Answer(outcome) =>
              && answer == Some(outcome) && g !in c.calls && |c.answers| > 0
              && var a := c.answers[|c.answers| - 1];
                 IsAnswer(a, g, old(c.calls)[g], outcome)
  {
    hide IsRun, CallDo, StepMove, CallCan;
    CallFrame(c.world, c.Now(), g, step);
    c.Step(Advance(g, step));
    answer := if g in c.calls then None else Some(c.answers[|c.answers| - 1].outcome);
  }

  // ---- The functions of the source. ----

  /** The same call, wherever it stands. */
  ghost predicate SameCaller<K>(a: Call<K>, b: Call<K>) {
    a.key == b.key && a.readClock == b.readClock
  }

  ghost predicate IsAnswer<K>(a: Return<K>, g: nat, c: Call<K>, outcome: Outcome) {
    a.begun == g && a.key == c.key && a.readClock == c.readClock && a.outcome == outcome
  }

  /** Call `g`, made as `c`, has answered `outcome`. */
  ghost predicate Answered<K, V>(s: State<K, V>, g: nat, c: Call<K>, outcome: Outcome) {
    g !in s.calls && exists j :: 0 <= j < |s.answers| && IsAnswer(s.answers[j], g, c, outcome)
  }

  lemma AnsweredAlike<K, V>(s: State<K, V>, g: nat, a: Call<K>, b: Call<K>)
    requires SameCaller(a, b)
    ensures forall outcome :: Answered(s, g, a, outcome) <==> Answered(s, g, b, outcome)
  {
  }

  method MaybeSpawnRefresh<K, V>(c: Cache<K, V>, polls: seq<seq<Event<K, V>>>, i: nat, g: nat) returns (answer: Outcome)
    requires c.Valid() && g in c.calls && c.calls[g].pc.StaleHit?
    modifies c
    ensures c.Valid() && old(c.events) < c.events
    ensures answer == Served(old(c.calls)[g].pc.entry) && Answered(c.Now(), g, old(c.calls)[g], answer)
    ensures |polls| <= i ==>
              var e := old(c.calls)[g].pc.entry;
              && c.slots == old(c.slots) && c.entries == old(c.entries) && c.flags == old(c.flags) + {e}
              && c.epoch == old(c.epoch)
              && var rf := Refresh(old(c.calls)[g].key, e, c.epoch, Spawned);
                 c.refreshes == if e in old(c.flags) then old(c.refreshes)
                                else old(c.refreshes)[old(c.stamp) + 1 := rf]
  {
    hide IsRun, CallDo;
    CasIs(c.world, c.Now(), g);
    var won := Go(c, g, Cas);
    if won.Some? {
      return won.value;
    }
    IsKnown(c, g);
    Pause(c, polls, i, g);
    SpawnIs(c.world, c.Now(), g);
    var spawned := Go(c, g, Spawn);
    return spawned.value;
  }

  lemma CasIs<K, V>(w: World<K, V>, s: State<K, V>, g: nat)
    requires CallCan(s, g, Cas)
    ensures var t, e := CallDo(w, s, g, Cas), s.calls[g].pc.entry;
            && t.slots == s.slots && t.entries == s.entries && t.refreshes == s.refreshes && t.epoch == s.epoch
            && t.flags == s.flags + {e} && (e in s.flags <==> StepMove(w, s, g, Cas).Answer?)
  {
  }

  lemma SpawnIs<K, V>(w: World<K, V>, s: State<K, V>, g: nat)
    requires CallCan(s, g, Spawn)
    ensures var t, c := CallDo(w, s, g, Spawn), s.calls[g];
            && t.slots == s.slots && t.entries == s.entries && t.flags == s.flags && t.epoch == s.epoch
            && t.refreshes == s.refreshes[s.stamp := Refresh(c.key, c.pc.entry, s.epoch, Spawned)]
  {
  }

  lemma IsKnown<K, V>(c: Cache<K, V>, g: nat)
    requires c.Valid() && g in c.calls
    ensures g < c.stamp && (c.calls[g].key in c.slots ==> c.slots[c.calls[g].key] in c.entries)
    ensures CallOk(c.world, c.Now(), g)
  {
    EveryState(c.world, c.states, c.events, |c.events|);
    assert CallOk(c.world, c.Now(), g);
    assert c.calls[g].key in c.slots ==> EntryFor(c.Now(), c.slots[c.calls[g].key], c.calls[g].key);
  }

  /** The loader ends: the entry is made. */
  lemma Makes<K, V>(w: World<K, V>, s: State<K, V>, g: nat, readAt: nat)
    requires CallCan(s, g, LoadOk(readAt))
    ensures CallCan(Next(CallDo(w, s, g, LoadOk(readAt))), g, Insert)
    ensures var t, f := CallDo(w, s, g, LoadOk(readAt)), s.flights[g];
            && t.entries == s.entries[s.stamp := Entry(f.key, w.source(readAt, f.key), s.clock, f.started, readAt)]
            && t.flights == s.flights[g := f.(phase := Made(s.stamp))] && t.calls == s.calls
            && t.slots == s.slots && t.epoch == s.epoch
  {
    CallFrame(w, s, g, LoadOk(readAt));
  }

  /** The entry made is published. */
  lemma Inserts<K, V>(w: World<K, V>, s: State<K, V>, g: nat)
    requires CallCan(s, g, Insert)
    ensures var t, f := CallDo(w, s, g, Insert), s.flights[g];
            && t.entries == s.entries && t.slots == s.slots[f.key := f.phase.entry] && t.epoch == s.epoch
            && StepMove(w, s, g, Insert) == Goto(Holding(s.calls[g].pc.epochBefore, f.phase.entry, true))
  {
  }

  /** Call `g` holds entry `e`, the outcome of flight `f`. */
  ghost predicate HoldsLoad<K, V>(w: World<K, V>, s: State<K, V>, g: nat, e: nat, f: Flight<K>) {
    && g in s.calls && s.calls[g].pc.Holding? && s.calls[g].pc.entry == e && e in s.entries
    && var en := s.entries[e];
       en.key == f.key && en.started == f.started && en.value == w.source(en.readAt, f.key)
  }

  /** The loader of call `g` has read the source at `readAt`; its entry is published. */
  method Publish<K, V>(c: Cache<K, V>, polls: seq<seq<Event<K, V>>>, i: nat, g: nat, readAt: nat)
    requires c.Valid() && CallCan(c.Now(), g, LoadOk(readAt))
    modifies c
    ensures c.Valid() && old(c.events) < c.events
    ensures g in c.calls && c.calls[g].pc.Holding? && SameCaller(c.calls[g], old(c.calls)[g])
    ensures HoldsLoad(c.world, c.Now(), g, old(c.stamp), old(c.flights)[g])
    ensures c.calls[g].pc.epochBefore == old(c.calls)[g].pc.epochBefore
    ensures |polls| <= i ==>
              c.slots == old(c.slots)[old(c.flights)[g].key := old(c.stamp)] && c.epoch == old(c.epoch)
  {
    hide IsRun, CallDo;
    Makes(c.world, c.Now(), g, readAt);
    var _ := Go(c, g, LoadOk(readAt));
    IsKnown(c, g);
    hide CallOk;
    Pause(c, polls, i, g);
    Inserts(c.world, c.Now(), g);
    var _ := Go(c, g, Insert);
  }

  /** What a leader whose loader ends as planned answers at once, if anything. */
  function Fate(plan: Plan): Option<Outcome> {
    match plan
    case Reads(_) => None
    case Errs => Some(Failed)
    case Panics => Some(Panicked)
  }

  /** The loader of call `g` runs and ends as planned: with an entry the call holds, or with its failure. */
  method RunLoader<K, V>(c: Cache<K, V>, polls: seq<seq<Event<K, V>>>, i: nat, g: nat, plan: Plan)
    returns (answer: Option<Outcome>)
    requires c.Valid() && LoaderRuns(c.Now(), g) && c.flights[g].started <= c.stamp
    modifies c
    ensures c.Valid() && old(c.events) < c.events
    ensures answer.None? ==> g in c.calls && c.calls[g].pc.Holding? && SameCaller(c.calls[g], old(c.calls)[g])
    ensures answer.Some? ==> Answered(c.Now(), g, old(c.calls)[g], answer.value) && Given(answer.value) == None
    ensures answer == Fate(plan)
    ensures plan.Reads? ==>
              && HoldsLoad(c.world, c.Now(), g, c.calls[g].pc.entry, old(c.flights)[g])
              && c.calls[g].pc.epochBefore == old(c.calls)[g].pc.epochBefore
              && (|polls| <= i ==>
                    && c.slots == old(c.slots)[old(c.flights)[g].key := c.calls[g].pc.entry]
                    && c.epoch == old(c.epoch))
  {
    hide IsRun, CallDo, HoldsLoad;
    IsKnown(c, g);
    hide CallOk;
    Pause(c, polls, i, g);
    match plan {
      case Errs => answer := Go(c, g, LoadErr);
      case Panics => answer := Go(c, g, LoadPanic);
      case Reads(at) =>
        Publish(c, polls, i + 1, g, if c.flights[g].started <= at <= c.stamp then at else c.stamp);
        IsHeld(c.world, c.Now(), g);
        answer := None;
    }
  }

  lemma IsHeld<K, V>(w: World<K, V>, s: State<K, V>, g: nat)
    ensures forall e, f :: HoldsLoad(w, s, g, e, f) ==>
              g in s.calls && s.calls[g].pc.Holding? && s.calls[g].pc.entry == e
  {
  }

  /** Call `g` waits for the flight it joined. */
  method AwaitFlight<K, V>(c: Cache<K, V>, polls: seq<seq<Event<K, V>>>, from: nat, g: nat)
    returns (i: nat, answer: Option<Outcome>)
    requires c.Valid() && g in c.calls && c.calls[g].pc.Waiting?
    modifies c
    ensures c.Valid() && old(c.events) <= c.events && from <= i
    ensures answer.None? ==>
              && g in c.calls && SameCaller(c.calls[g], old(c.calls)[g])
              && (|| c.calls[g].pc.Holding? || (c.calls[g].pc.Ready? && from < i <= |polls|)
                  || (c.calls[g].pc.Waiting? && |polls| <= i))
    ensures answer.Some? ==> Answered(c.Now(), g, old(c.calls)[g], answer.value) && Given(answer.value) == None
    ensures var f := old(c.calls)[g].pc.flight;
            && (answer.Some? ==> f in c.flights && c.flights[f].phase.FlightFailed? && answer.value == Failed)
            && (answer.None? && c.calls[g].pc.Holding? ==>
                  f in c.flights && c.flights[f].phase == Inserted(c.calls[g].pc.entry))
            && (answer.None? && c.calls[g].pc.Ready? ==> f in c.flights && c.flights[f].phase.FlightPanicked?)
  {
    hide IsRun, CallDo;
    i, answer := from, None;
    while i < |polls|
      invariant c.Valid() && old(c.events) <= c.events && from <= i
      invariant g in c.calls && c.calls[g] == old(c.calls)[g]
    {
      IsKnown(c, g);
      Pause(c, polls, i, g);
      i := i + 1;
      if CallCan(c.Now(), g, Wake) {
        LoadFrame(c.world, c.Now(), g, Wake);
        answer := Go(c, g, Wake);
        return;
      }
    }
  }

  /**
  Call `g` holds an entry loaded no earlier than `since`; the map is `before` with that entry under
  the key, and the epoch is still the one the call noted.
  */
  ghost predicate LoadedAlone<K, V>(
      w: World<K, V>, before: map<K, nat>, s: State<K, V>, g: nat, k: K, since: nat)
  {
    && g in s.calls && s.calls[g].pc.Holding? && s.calls[g].pc.epochBefore == s.epoch
    && s.calls[g].pc.entry in s.entries && s.slots == before[k := s.calls[g].pc.entry]
    && var en := s.entries[s.calls[g].pc.entry];
       en.key == k && since <= en.started && en.value == w.source(en.readAt, k)
  }

  /** Call `g` goes through `try_get_with` once; with nobody else about and nothing there, it leads. */
  method Attempt<K, V>(c: Cache<K, V>, polls: seq<seq<Event<K, V>>>, from: nat, g: nat, plan: Plan)
    returns (i: nat, answer: Option<Outcome>)
    requires c.Valid() && g in c.calls && c.calls[g].pc.Ready?
    modifies c
    ensures c.Valid() && old(c.events) < c.events
    ensures answer.None? ==>
              && g in c.calls && SameCaller(c.calls[g], old(c.calls)[g])
              && (c.calls[g].pc.Holding? || (c.calls[g].pc.Ready? && from < i <= |polls|) || c.calls[g].pc.Waiting?)
    ensures answer.Some? ==> Answered(c.Now(), g, old(c.calls)[g], answer.value) && !answer.value.Served?
    ensures var call := old(c.calls)[g];
            |polls| <= from && call.key !in old(c.slots) && call.key !in old(c.active) &&
            call.pc.epochBefore == old(c.epoch) ==>
              && answer == Fate(plan) && from < i
              && (plan.Reads? ==> LoadedAlone(c.world, old(c.slots), c.Now(), g, call.key, old(c.stamp)))
  {
    hide IsRun, CallDo, HoldsLoad, LoadedAlone, Answered;
    ghost var alone := |polls| <= from && c.calls[g].key !in c.slots && c.calls[g].key !in c.active &&
      c.calls[g].pc.epochBefore == c.epoch;
    ghost var slots, key, since, caller := c.slots, c.calls[g].key, c.stamp, c.calls[g];
    IsKnown(c, g);
    hide CallOk;
    Pause(c, polls, from, g);
    TryIs(c.world, c.Now(), g);
    answer := Go(c, g, TryGetWith);
    i := from + 1;
    ghost var moved := c.calls[g];
    if c.calls[g].pc.Leading? {
      ghost var flight := c.flights[g];
      answer := RunLoader(c, polls, i, g, plan);
      if alone && plan.Reads? { IsLoadedAlone(c.world, slots, c.Now(), g, key, since, flight); }
    } else if c.calls[g].pc.Waiting? {
      i, answer := AwaitFlight(c, polls, i, g);
    }
    AnsweredAlike(c.Now(), g, caller, moved);
  }

  /** A call that goes on to lead, as it does with nothing there, has a flight of its own. */
  lemma TryIs<K, V>(w: World<K, V>, s: State<K, V>, g: nat)
    requires CallCan(s, g, TryGetWith)
    ensures var t, c := Next(CallDo(w, s, g, TryGetWith)), s.calls[g];
            && StepMove(w, s, g, TryGetWith).Goto?
            && (c.key !in s.slots && c.key !in s.active ==>
                  StepMove(w, s, g, TryGetWith) == Goto(Leading(c.pc.epochBefore)))
            && (StepMove(w, s, g, TryGetWith).pc.Leading? ==>
                  && LoaderRuns(t, g) && t.flights[g] == Flight(c.key, s.stamp, Loading)
                  && StepMove(w, s, g, TryGetWith) == Goto(Leading(c.pc.epochBefore)))
            && t.slots == s.slots && t.epoch == s.epoch
  {
  }

  lemma IsLoadedAlone<K, V>(
      w: World<K, V>, before: map<K, nat>, s: State<K, V>, g: nat, k: K, since: nat, f: Flight<K>)
    requires g in s.calls && s.calls[g].pc.Holding? && HoldsLoad(w, s, g, s.calls[g].pc.entry, f)
    requires f.key == k && since <= f.started && s.calls[g].pc.epochBefore == s.epoch
    requires s.slots == before[k := s.calls[g].pc.entry]
    ensures LoadedAlone(w, before, s, g, k, since)
  {
  }

  /** Entry `e` has been loaded no earlier than `since` and is what the map has under `k`, nothing else changed. */
  ghost predicate CachedAlone<K, V>(
      w: World<K, V>, before: map<K, nat>, s: State<K, V>, e: nat, k: K, since: nat)
  {
    && e in s.entries && s.slots == before[k := e]
    && s.entries[e].key == k && since <= s.entries[e].started && s.entries[e].value == w.source(s.entries[e].readAt, k)
  }

  /**
  A hard miss. With nobody else about and no load of the key in flight, the call's own loader
  decides: it answers with what the loader read, now cached under the key, or with its failure.
  */
  method LoadSingleFlight<K, V>(c: Cache<K, V>, polls: seq<seq<Event<K, V>>>, from: nat, g: nat, plan: Plan)
    returns (answer: Option<Outcome>)
    requires c.Valid() && g in c.calls && c.calls[g].pc.Missed?
    modifies c
    ensures c.Valid() && old(c.events) < c.events
    ensures answer.None? ==> g in c.calls && SameCaller(c.calls[g], old(c.calls)[g])
    ensures answer.Some? ==> Answered(c.Now(), g, old(c.calls)[g], answer.value) && !answer.value.Served?
    ensures var k := old(c.calls)[g].key;
            |polls| <= from && k !in old(c.active) ==>
              && (plan.Reads? ==>
                    && answer.Some? && answer.value.Fetched?
                    && CachedAlone(c.world, old(c.slots), c.Now(), answer.value.entry, k, old(c.stamp)))
              && (!plan.Reads? ==> answer == Fate(plan))
  {
    hide IsRun, CallDo, LoadedAlone, CachedAlone, Answered;
    ghost var alone := |polls| <= from && c.calls[g].key !in c.active;
    ghost var slots, k, since, caller := c.slots, c.calls[g].key, c.stamp, c.calls[g];
    Prepare(c, polls, from, g);
    var i: nat := from + 1;
    while c.calls[g].pc.Ready?
      invariant c.Valid() && old(c.events) < c.events
      invariant g in c.calls && SameCaller(c.calls[g], old(c.calls)[g])
      invariant c.calls[g].pc.Ready? || c.calls[g].pc.Holding?
      invariant alone && c.calls[g].pc.Ready? ==>
                  && |polls| <= i && k !in c.active && c.slots == slots - {k}
                  && c.calls[g].pc.epochBefore == c.epoch && since <= c.stamp
      invariant alone && c.calls[g].pc.Holding? ==>
                  plan.Reads? && |polls| <= i && LoadedAlone(c.world, slots - {k}, c.Now(), g, k, since)
      decreases if !c.calls[g].pc.Ready? then 0 else if i <= |polls| then |polls| - i + 1 else 1
    {
      ghost var begun, trying := c.stamp, c.calls[g];
      i, answer := Attempt(c, polls, i, g, plan);
      AnsweredAlike(c.Now(), g, caller, trying);
      if alone && plan.Reads? { LoadedSooner(c.world, slots - {k}, c.Now(), g, k, since, begun); }
      if answer.Some? || c.calls[g].pc.Waiting? { return; }
    }
    ghost var s := c.Now();
    if alone { LoadedSooner(c.world, slots - {k}, s, g, k, since, since); }
    answer := Vouch(c, polls, i, g);
    AnsweredAlike(c.Now(), g, caller, s.calls[g]);
    if alone { StaysCached(c.world, slots, s, c.Now(), g, k, since); }
  }

  lemma LoadedSooner<K, V>(
      w: World<K, V>, before: map<K, nat>, s: State<K, V>, g: nat, k: K, since: nat, later: nat)
    requires since <= later && LoadedAlone(w, before, s, g, k, later)
    ensures LoadedAlone(w, before, s, g, k, since)
    ensures g in s.calls && s.calls[g].pc.Holding? && s.calls[g].pc.epochBefore == s.epoch
  {
  }

  /** The entry in the way is dropped, and the epoch noted, before the load. */
  method Prepare<K, V>(c: Cache<K, V>, polls: seq<seq<Event<K, V>>>, i: nat, g: nat)
    requires c.Valid() && g in c.calls && c.calls[g].pc.Missed?
    modifies c
    ensures c.Valid() && old(c.events) < c.events
    ensures g in c.calls && c.calls[g] == old(c.calls)[g].(pc := Ready(c.epoch))
    ensures |polls| <= i ==>
              && c.slots == old(c.slots) - {old(c.calls)[g].key} && c.active == old(c.active)
              && old(c.stamp) <= c.stamp
  {
    hide IsRun, CallDo;
    IsKnown(c, g);
    hide CallOk;
    LoadFrame(c.world, c.Now(), g, DropCurrent);
    var _ := Go(c, g, DropCurrent);
    Pause(c, polls, i, g);
    CallFrame(c.world, c.Now(), g, Capture);
    LoadFrame(c.world, c.Now(), g, Capture);
    var _ := Go(c, g, Capture);
  }

  /** Call `g` holds its entry: hand it out, dropping it from the cache if the epoch has moved. */
  method Vouch<K, V>(c: Cache<K, V>, polls: seq<seq<Event<K, V>>>, i: nat, g: nat) returns (answer: Option<Outcome>)
    requires c.Valid() && g in c.calls && c.calls[g].pc.Holding?
    modifies c
    ensures c.Valid() && old(c.events) < c.events
    ensures answer == Some(Fetched(old(c.calls)[g].pc.entry))
    ensures Answered(c.Now(), g, old(c.calls)[g], answer.value)
    ensures |polls| <= i && old(c.calls)[g].pc.epochBefore == old(c.epoch) ==>
              c.slots == old(c.slots) && c.entries == old(c.entries)
  {
    hide IsRun, CallDo, StepMove, Answered;
    ghost var caller := c.calls[g];
    IsKnown(c, g);
    hide CallOk;
    Pause(c, polls, i, g);
    CheckIs(c.world, c.Now(), g);
    answer := Go(c, g, CheckEpoch);
    if answer.None? {
      Pause(c, polls, i + 1, g);
      EvacuateIs(c.world, c.Now(), g);
      answer := Go(c, g, Evacuate);
    }
    IsAnswered(c.Now(), g, caller, answer.value);
  }

  lemma IsAnswered<K, V>(s: State<K, V>, g: nat, c: Call<K>, outcome: Outcome)
    requires g !in s.calls && |s.answers| > 0 && IsAnswer(s.answers[|s.answers| - 1], g, c, outcome)
    ensures Answered(s, g, c, outcome)
  {
  }

  lemma EvacuateIs<K, V>(w: World<K, V>, s: State<K, V>, g: nat)
    requires CallCan(s, g, Evacuate)
    ensures StepMove(w, s, g, Evacuate) == Answer(Fetched(s.calls[g].pc.entry))
  {
  }

  lemma CheckIs<K, V>(w: World<K, V>, s: State<K, V>, g: nat)
    requires CallCan(s, g, CheckEpoch)
    ensures var t, pc := CallDo(w, s, g, CheckEpoch), s.calls[g].pc;
            && t.slots == s.slots && t.entries == s.entries
            && StepMove(w, s, g, CheckEpoch) ==
               if pc.epochBefore == s.epoch then Answer(Fetched(pc.entry)) else Goto(Condemned(pc.entry, pc.led))
  {
  }

  lemma StaysCached<K, V>(
      w: World<K, V>, before: map<K, nat>, s: State<K, V>, t: State<K, V>, g: nat, k: K, since: nat)
    requires LoadedAlone(w, before - {k}, s, g, k, since) && t.slots == s.slots && t.entries == s.entries
    ensures CachedAlone(w, before, t, s.calls[g].pc.entry, k, since)
  {
    var e := s.calls[g].pc.entry;
    assert (before - {k})[k := e] == before[k := e];
  }

  ghost predicate Means<K, V>(s: State<K, V>, outcome: Outcome, r: Reply<V>) {
    match outcome
    case Served(e) => e in s.entries && r == Value(s.entries[e].value)
    case Fetched(e) => e in s.entries && r == Value(s.entries[e].value)
    case Failed => r == LoaderFailed
    case Panicked => r == LoaderPanicked
  }

  /** Entry `e` is what the source held under `k` at some moment of a load that is over. */
  ghost predicate Backed<K, V>(w: World<K, V>, s: State<K, V>, k: K, e: nat) {
    e in s.entries &&
    var en := s.entries[e];
    en.key == k && en.value == w.source(en.readAt, k) && en.started <= en.readAt < s.stamp
  }

  /** What the answer is worth to a call that read `clock`: true once, and if cached still in date. */
  ghost predicate Worth<K, V>(w: World<K, V>, s: State<K, V>, k: K, clock: nat, outcome: Outcome) {
    match outcome
    case Served(e) => Backed(w, s, k, e) && clock < s.entries[e].fetchedAt + TtlFor(w.config, s.entries[e].value)
    case Fetched(e) => Backed(w, s, k, e)
    case _ => true
  }

  /** A call of `k` begun at `clock`. */
  function Caller<K>(k: K, clock: nat): Call<K> {
    Call(k, clock, 0, Begun)
  }

  /** An entry a call that read `clock` is handed: a value still fresh, or a known absence still in date. */
  ghost predicate Handed<K, V>(config: Config, clock: nat, en: Entry<K, V>) {
    if en.value.Some? then Within(clock, en.fetchedAt, config.softTtl) && Within(clock, en.fetchedAt, config.ttl)
    else Within(clock, en.fetchedAt, config.negativeTtl)
  }

  /** An entry it is handed while a refresh is started: a value in date, past its soft lifetime. */
  ghost predicate Aged<K, V>(config: Config, clock: nat, en: Entry<K, V>) {
    en.value.Some? && Within(clock, en.fetchedAt, config.ttl) && !Within(clock, en.fetchedAt, config.softTtl)
  }

  ghost predicate NewRefresh<K, V>(s: State<K, V>, t: State<K, V>, q: nat, rf: Refresh<K, V>) {
    t.refreshes == s.refreshes[q := rf]
  }

  /** What a `get` of `k` that runs by itself does to the cache that was `s` and is now `t`, and what it returns. */
  ghost predicate GetAlone<K, V>(w: World<K, V>, s: State<K, V>, t: State<K, V>, k: K, plan: Plan, r: Reply<V>) {
    if k in s.slots && s.slots[k] in s.entries && Handed(w.config, s.clock, s.entries[s.slots[k]]) then
      && r == Value(s.entries[s.slots[k]].value)
      && t.slots == s.slots && t.flights == s.flights && t.refreshes == s.refreshes
    else if k in s.slots && s.slots[k] in s.entries && Aged(w.config, s.clock, s.entries[s.slots[k]]) then
      && r == Value(s.entries[s.slots[k]].value) && t.slots == s.slots && t.flags == s.flags + {s.slots[k]}
      && (s.slots[k] in s.flags ==> t.refreshes == s.refreshes)
      && (s.slots[k] !in s.flags ==>
            exists q: nat :: s.stamp < q && NewRefresh(s, t, q, Refresh(k, s.slots[k], s.epoch, Spawned)))
    else
      k !in s.active ==>
        match plan
        case Errs => r == LoaderFailed
        case Panics => r == LoaderPanicked
        case Reads(_) =>
          exists e :: CachedAlone(w, s.slots, t, e, k, s.stamp) && r == Value(t.entries[e].value)
  }

  /**
  What `get` promises, whatever the other tasks do meanwhile: unless it is still waiting, its call
  has answered; with a value only if the source held that value during the load behind it; and with
  a cached value only within its time to live of the clock reading at the beginning of this call.
  By itself, it hands out what is fresh, hands out what is stale and starts one refresh, and
  otherwise loads.
  */
  method Get<K, V>(c: Cache<K, V>, k: K, polls: seq<seq<Event<K, V>>>, plan: Plan) returns (r: Reply<V>)
    requires c.Valid()
    modifies c
    ensures c.Valid() && old(c.events) < c.events
    ensures r.Pending? ==> old(c.stamp) in c.calls && c.calls[old(c.stamp)].key == k
    ensures !r.Pending? ==>
              exists outcome ::
                && Answered(c.Now(), old(c.stamp), Caller(k, old(c.clock)), outcome)
                && Means(c.Now(), outcome, r) && Worth(c.world, c.Now(), k, old(c.clock), outcome)
    ensures polls == [] ==> GetAlone(c.world, old(c.Now()), c.Now(), k, plan, r)
  {
    hide IsRun, CallDo, StepMove, Answered, GetAlone, CachedAlone, Judged, OnlyLooked;
    ghost var s := c.Now();
    var g, answer := Consult(c, k, polls);
    ghost var looked := c.Now();
    if answer.Some? {
      r := ReplyTo(c, g, k, s.clock, answer.value);
      if polls == [] { AloneHanded(c.world, s, looked, g, k, plan, answer.value, r); }
    } else if c.calls[g].pc.StaleHit? {
      var served := MaybeSpawnRefresh(c, polls, 1, g);
      AnsweredAlike(c.Now(), g, Caller(k, s.clock), looked.calls[g]);
      r := ReplyTo(c, g, k, s.clock, served);
      if polls == [] { AloneAged(c.world, s, looked, c.Now(), g, k, plan, r); }
    } else {
      answer := LoadSingleFlight(c, polls, 1, g, plan);
      if answer.None? {
        if polls == [] { StillWaits(c.world, s, looked, c.Now(), g, k, plan); }
        return Pending;
      }
      AnsweredAlike(c.Now(), g, Caller(k, s.clock), looked.calls[g]);
      r := ReplyTo(c, g, k, s.clock, answer.value);
      if polls == [] { AloneLoads(c.world, s, looked, c.Now(), g, k, plan, answer.value, r); }
    }
  }

  /** The fast path: look the key up and judge what is there by the clock reading at the call's beginning. */
  method Consult<K, V>(c: Cache<K, V>, k: K, polls: seq<seq<Event<K, V>>>) returns (g: nat, answer: Option<Outcome>)
    requires c.Valid()
    modifies c
    ensures c.Valid() && old(c.events) < c.events && g == old(c.stamp)
    ensures answer.None? ==>
              && g in c.calls && SameCaller(c.calls[g], Caller(k, old(c.clock)))
              && (c.calls[g].pc.StaleHit? || c.calls[g].pc.Missed?)
    ensures answer.Some? ==> Answered(c.Now(), g, Caller(k, old(c.clock)), answer.value) && answer.value.Served?
    ensures Judged(c.world.config, old(c.clock), c.Now(), g, k, answer)
    ensures polls == [] ==> OnlyLooked(old(c.Now()), c.Now())
  {
    g := c.stamp;
    hide IsRun, CallDo, Judged, OnlyLooked;
    ghost var s := c.Now();
    BeginIs(c.world, s, k);
    c.Step(Begin(k));
    IsKnown(c, g);
    Pause(c, polls, 0, g);
    IsKnown(c, g);
    hide CallOk;
    LookupIs(c.world, c.Now(), g);
    answer := Go(c, g, Lookup);
  }

  /** What the lookup of call `g` came to, told by what the slot holds and the clock reading `clock`. */
  ghost predicate Judged<K, V>(config: Config, clock: nat, s: State<K, V>, g: nat, k: K, answer: Option<Outcome>) {
    && (k in s.slots ==> s.slots[k] in s.entries)
    && (if k in s.slots && Handed(config, clock, s.entries[s.slots[k]]) then answer == Some(Served(s.slots[k]))
        else
          && answer.None? && g in s.calls
          && s.calls[g].pc == if k in s.slots && Aged(config, clock, s.entries[s.slots[k]]) then StaleHit(s.slots[k])
                              else Missed)
  }

  /** Nothing a lookup finds, and nothing it may start, has changed. */
  ghost predicate OnlyLooked<K, V>(s: State<K, V>, t: State<K, V>) {
    && t.slots == s.slots && t.entries == s.entries && t.flights == s.flights && t.active == s.active
    && t.refreshes == s.refreshes && t.flags == s.flags && t.epoch == s.epoch && s.stamp < t.stamp
  }

  lemma BeginIs<K, V>(w: World<K, V>, s: State<K, V>, k: K)
    ensures Enabled(s, Begin(k)) && OnlyLooked(s, Apply(w, s, Begin(k)))
    ensures Apply(w, s, Begin(k)).calls == s.calls[s.stamp := Apply(w, s, Begin(k)).calls[s.stamp]]
    ensures var c := Apply(w, s, Begin(k)).calls[s.stamp]; c.key == k && c.readClock == s.clock && c.pc.Begun?
  {
    hide CallDo, CallCan, RefreshDo, RefreshCan;
  }

  lemma LookupIs<K, V>(w: World<K, V>, s: State<K, V>, g: nat)
    requires CallCan(s, g, Lookup)
    ensures OnlyLooked(s, Next(CallDo(w, s, g, Lookup)))
    ensures var t, c, move := Next(CallDo(w, s, g, Lookup)), s.calls[g], StepMove(w, s, g, Lookup);
            Judged(w.config, c.readClock, t, g, c.key, if move.Answer? then Some(move.outcome) else None)
  {
    CallFrame(w, s, g, Lookup);
    LoadFrame(w, s, g, Lookup);
    hide CallDo;
  }

  lemma AloneHanded<K, V>(
      w: World<K, V>, s: State<K, V>, t: State<K, V>, g: nat, k: K, plan: Plan, outcome: Outcome, r: Reply<V>)
    requires OnlyLooked(s, t) && Means(t, outcome, r) && Judged(w.config, s.clock, t, g, k, Some(outcome))
    ensures GetAlone(w, s, t, k, plan, r)
  {
  }

  lemma AloneAged<K, V>(
      w: World<K, V>, s: State<K, V>, looked: State<K, V>, t: State<K, V>, g: nat, k: K, plan: Plan, r: Reply<V>)
    requires OnlyLooked(s, looked) && Judged(w.config, s.clock, looked, g, k, None)
    requires g in looked.calls && looked.calls[g].pc.StaleHit? && looked.calls[g].key == k
    requires var e := looked.calls[g].pc.entry;
             && Means(t, Served(e), r) && t.slots == looked.slots && t.entries == looked.entries
             && t.flags == looked.flags + {e}
             && t.refreshes == if e in looked.flags then looked.refreshes
                               else looked.refreshes[looked.stamp + 1 := Refresh(k, e, looked.epoch, Spawned)]
    ensures GetAlone(w, s, t, k, plan, r)
  {
    var e := looked.calls[g].pc.entry;
    if e !in looked.flags { assert NewRefresh(s, t, looked.stamp + 1, Refresh(k, e, s.epoch, Spawned)); }
  }

  lemma StillWaits<K, V>(
      w: World<K, V>, s: State<K, V>, looked: State<K, V>, t: State<K, V>, g: nat, k: K, plan: Plan)
    requires OnlyLooked(s, looked) && Judged(w.config, s.clock, looked, g, k, None)
    requires g in looked.calls && looked.calls[g].pc.Missed? && k in looked.active
    ensures GetAlone(w, s, t, k, plan, Pending)
  {
  }

  lemma AloneLoads<K, V>(w: World<K, V>, s: State<K, V>, looked: State<K, V>, t: State<K, V>, g: nat, k: K,
                         plan: Plan, outcome: Outcome, r: Reply<V>)
    requires OnlyLooked(s, looked) && Judged(w.config, s.clock, looked, g, k, None) && Means(t, outcome, r)
    requires g in looked.calls && looked.calls[g].pc.Missed?
    requires k !in looked.active ==>
               && (plan.Reads? ==>
                     outcome.Fetched? && CachedAlone(w, looked.slots, t, outcome.entry, k, looked.stamp))
               && (!plan.Reads? ==> Some(outcome) == Fate(plan))
    ensures GetAlone(w, s, t, k, plan, r)
  {
  }

  method ReplyTo<K, V>(c: Cache<K, V>, g: nat, k: K, ghost clock: nat, outcome: Outcome) returns (r: Reply<V>)
    requires c.Valid() && Answered(c.Now(), g, Caller(k, clock), outcome)
    ensures !r.Pending? && Means(c.Now(), outcome, r) && Worth(c.world, c.Now(), k, clock, outcome)
  {
    ghost var s := c.Now();
    ghost var j :| 0 <= j < |s.answers| && IsAnswer(s.answers[j], g, Caller(k, clock), outcome);
    if outcome.Served? || outcome.Fetched? {
      AnswersAreTruthful(c.world, c.states, c.events, |c.events|, j);
      r := Value(c.entries[outcome.entry].value);
    } else {
      r := if outcome.Failed? then LoaderFailed else LoaderPanicked;
    }
  }

  // ---- The refresh task. ----

  method GoRefresh<K, V>(c: Cache<K, V>, polls: seq<seq<Event<K, V>>>, i: nat, r: nat, step: RefreshStep)
    requires c.Valid() && RefreshCan(c.Now(), r, step) && r < c.stamp && !step.Exit?
    modifies c
    ensures c.Valid() && old(c.events) < c.events && r < c.stamp
    ensures r in c.refreshes
    ensures c.refreshes[r] == RefreshDo(c.world, old(c.Now()), r, step).refreshes[r]
    ensures |polls| <= i ==> c.Now() == Next(RefreshDo(c.world, old(c.Now()), r, step))
  {
    hide IsRun, RefreshDo, RefreshCan;
    RefreshFrame(c.world, c.Now(), r, step);
    c.Step(Refreshing(r, step));
    Pause(c, polls, i, r);
  }

  /** The refresh may replace its entry: the epoch has not moved and the entry is still in its slot. */
  predicate MayReplace<K, V>(s: State<K, V>, rf: Refresh<K, V>) {
    rf.epochBefore == s.epoch && rf.key in s.slots && s.slots[rf.key] == rf.from
  }

  /** What refresh `rf`, by itself, does with what it loaded: replace its entry and count it, or drop it. */
  ghost predicate WroteAlone<K, V>(s: State<K, V>, t: State<K, V>, rf: Refresh<K, V>, load: Load<V>) {
    if MayReplace(s, rf) then
      && t.metrics == s.metrics.(refreshSuccess := s.metrics.refreshSuccess + 1)
      && exists e :: e in t.entries && t.slots == s.slots[rf.key := e] &&
                     t.entries[e] == Entry(rf.key, load.value, s.clock, load.started, load.readAt)
    else t.slots == s.slots && t.metrics == s.metrics.(droppedEpoch := s.metrics.droppedEpoch + 1)
  }

  /** Refresh `rf`, by itself, loaded what the source held at some moment since `s`, and acted on it. */
  ghost predicate ReloadedAlone<K, V>(w: World<K, V>, s: State<K, V>, t: State<K, V>, rf: Refresh<K, V>) {
    exists started: nat, readAt: nat ::
      s.stamp <= started <= readAt && WroteAlone(s, t, rf, Load(started, readAt, w.source(readAt, rf.key)))
  }

  /** What a refresh that runs by itself comes to. */
  ghost predicate RefreshedAlone<K, V>(w: World<K, V>, s: State<K, V>, t: State<K, V>, rf: Refresh<K, V>, plan: Plan) {
    match plan
    case Errs => t.slots == s.slots && t.metrics == s.metrics.(refreshFailure := s.metrics.refreshFailure + 1)
    case Panics => t.slots == s.slots && t.metrics == s.metrics.(panics := s.metrics.panics + 1)
    case Reads(_) => ReloadedAlone(w, s, t, rf)
  }

  /** Nothing a refresh looks at differs, and `b` is `a` further on. */
  ghost predicate SameForTask<K, V>(s: State<K, V>, t: State<K, V>, a: Refresh<K, V>, b: Refresh<K, V>) {
    && t.slots == s.slots && t.metrics == s.metrics && t.epoch == s.epoch && t.clock == s.clock
    && a.key == b.key && a.from == b.from && a.epochBefore == b.epochBefore
  }

  /**
  The refresh spawned on a stale hit. However its loader ends, panics included, it is gone
  afterwards and the flag of the entry it was spawned for is clear. By itself, it replaces the entry
  with what it loaded if the epoch and the slot are as they were, and drops it otherwise.
  */
  method RunRefresh<K, V>(c: Cache<K, V>, polls: seq<seq<Event<K, V>>>, r: nat, plan: Plan)
    requires c.Valid() && r in c.refreshes && c.refreshes[r].phase.Spawned?
    modifies c
    ensures c.Valid() && old(c.events) < c.events
    ensures r !in c.refreshes && old(c.refreshes)[r].from !in c.flags
    ensures polls == [] ==> RefreshedAlone(c.world, old(c.Now()), c.Now(), old(c.refreshes)[r], plan)
  {
    hide IsRun, RefreshDo, RefreshedAlone, SameForTask;
    ghost var s, rf := c.Now(), c.refreshes[r];
    TaskIsKnown(c, r);
    StartIs(c.world, s, r);
    GoRefresh(c, polls, 0, r, Start);
    TaskIsKnown(c, r);
    RunTask(c, polls, r, plan, s, rf);
    ExitIs(c.world, c.Now(), r);
    AfterExit(c.world, s, c.Now(), r, rf, plan);
    c.Step(Refreshing(r, Exit));
  }

  lemma AfterExit<K, V>(w: World<K, V>, s: State<K, V>, t: State<K, V>, r: nat, rf: Refresh<K, V>, plan: Plan)
    requires RefreshCan(t, r, Exit)
    ensures RefreshedAlone(w, s, t, rf, plan) ==> RefreshedAlone(w, s, Next(RefreshDo(w, t, r, Exit)), rf, plan)
  {
    hide RefreshDo, MayReplace;
    ExitIs(w, t, r);
  }

  /** The loader and what follows it, up to the drop guard. */
  method RunTask<K, V>(
      c: Cache<K, V>, polls: seq<seq<Event<K, V>>>, r: nat, plan: Plan, ghost s: State<K, V>, ghost rf: Refresh<K, V>)
    requires c.Valid() && r < c.stamp && r in c.refreshes && c.refreshes[r].phase.Running?
    requires s.stamp <= c.refreshes[r].phase.started < c.stamp
    modifies c
    ensures c.Valid() && old(c.events) < c.events && r < c.stamp
    ensures r in c.refreshes && c.refreshes[r] == old(c.refreshes)[r].(phase := Exiting)
    ensures polls == [] && SameForTask(s, old(c.Now()), rf, old(c.refreshes)[r]) ==>
              RefreshedAlone(c.world, s, c.Now(), rf, plan)
  {
    hide IsRun, RefreshDo, ReloadedAlone, WroteAlone;
    match plan {
      case Errs =>
        EndIs(c.world, c.Now(), r, ReceiveErr);
        GoRefresh(c, polls, 1, r, ReceiveErr);
      case Panics =>
        EndIs(c.world, c.Now(), r, Panic);
        GoRefresh(c, polls, 1, r, Panic);
      case Reads(at) =>
        var started := c.refreshes[r].phase.started;
        var readAt := if started <= at < c.stamp then at else started;
        ReceiveIs(c.world, c.Now(), r, readAt);
        GoRefresh(c, polls, 1, r, Receive(readAt));
        ghost var loaded := c.Now();
        GuardedInsert(c, polls, r);
        if polls == [] && SameForTask(s, loaded, rf, loaded.refreshes[r]) {
          WroteSo(c.world, s, loaded, c.Now(), rf, loaded.refreshes[r]);
        }
    }
  }

  lemma StartIs<K, V>(w: World<K, V>, s: State<K, V>, r: nat)
    requires RefreshCan(s, r, Start)
    ensures var t := RefreshDo(w, s, r, Start);
            && r in t.refreshes && t.refreshes[r] == s.refreshes[r].(phase := Running(s.stamp))
            && SameForTask(s, Next(t), s.refreshes[r], t.refreshes[r])
  {
  }

  lemma EndIs<K, V>(w: World<K, V>, s: State<K, V>, r: nat, step: RefreshStep)
    requires RefreshCan(s, r, step) && (step.ReceiveErr? || step.Panic?)
    ensures var t := RefreshDo(w, s, r, step);
            && r in t.refreshes && t.refreshes[r] == s.refreshes[r].(phase := Exiting)
            && t.slots == s.slots
            && t.metrics == if step.Panic? then s.metrics.(panics := s.metrics.panics + 1)
                            else s.metrics.(refreshFailure := s.metrics.refreshFailure + 1)
  {
  }

  lemma ReceiveIs<K, V>(w: World<K, V>, s: State<K, V>, r: nat, readAt: nat)
    requires RefreshCan(s, r, Receive(readAt))
    ensures var t, rf := RefreshDo(w, s, r, Receive(readAt)), s.refreshes[r];
            && r in t.refreshes
            && t.refreshes[r] == rf.(phase := Loaded(Load(rf.phase.started, readAt, w.source(readAt, rf.key))))
            && SameForTask(s, Next(t), rf, t.refreshes[r])
  {
  }

  lemma ExitIs<K, V>(w: World<K, V>, s: State<K, V>, r: nat)
    requires RefreshCan(s, r, Exit)
    ensures var t := RefreshDo(w, s, r, Exit);
            && t.slots == s.slots && t.entries == s.entries && t.metrics == s.metrics
            && t.refreshes == s.refreshes - {r} && t.flags == s.flags - {s.refreshes[r].from}
  {
  }

  lemma WroteSo<K, V>(
      w: World<K, V>, s: State<K, V>, loaded: State<K, V>, t: State<K, V>, rf: Refresh<K, V>, now: Refresh<K, V>)
    requires SameForTask(s, loaded, rf, now) && now.phase.Loaded?
    requires var load := now.phase.load;
             && s.stamp <= load.started <= load.readAt && load.value == w.source(load.readAt, rf.key)
             && WroteAlone(loaded, t, now, load)
    ensures ReloadedAlone(w, s, t, rf)
  {
    var load := now.phase.load;
    assert WroteAlone(s, t, rf, Load(load.started, load.readAt, w.source(load.readAt, rf.key)));
  }

  /** The two guards and the insert. */
  method GuardedInsert<K, V>(c: Cache<K, V>, polls: seq<seq<Event<K, V>>>, r: nat)
    requires c.Valid() && r in c.refreshes && c.refreshes[r].phase.Loaded? && r < c.stamp
    modifies c
    ensures c.Valid() && old(c.events) < c.events && r < c.stamp
    ensures r in c.refreshes && c.refreshes[r] == old(c.refreshes)[r].(phase := Exiting)
    ensures polls == [] ==>
              WroteAlone(old(c.Now()), c.Now(), old(c.refreshes)[r], old(c.refreshes)[r].phase.load)
  {
    hide IsRun, WroteAlone;
    ghost var s := c.Now();
    GoRefresh(c, polls, 2, r, RecheckEpoch);
    if c.refreshes[r].phase.EpochChecked? {
      GoRefresh(c, polls, 3, r, RecheckSlot);
    }
    if c.refreshes[r].phase.Confirmed? {
      GoRefresh(c, polls, 4, r, WriteBack);
    }
    if polls == [] { GuardsDecide(c.world, s, r); }
  }

  /** The three write-back steps in a row, as many of them as the guards allow. */
  ghost function Guarded<K, V>(w: World<K, V>, s: State<K, V>, r: nat): State<K, V>
    requires RefreshCan(s, r, RecheckEpoch)
  {
    var t := Next(RefreshDo(w, s, r, RecheckEpoch));
    if !t.refreshes[r].phase.EpochChecked? then t else
    var u := Next(RefreshDo(w, t, r, RecheckSlot));
    if !u.refreshes[r].phase.Confirmed? then u else
    Next(RefreshDo(w, u, r, WriteBack))
  }

  lemma GuardsDecide<K, V>(w: World<K, V>, s: State<K, V>, r: nat)
    requires RefreshCan(s, r, RecheckEpoch)
    ensures WroteAlone(s, Guarded(w, s, r), s.refreshes[r], s.refreshes[r].phase.load)
  {
    EpochGuardIs(w, s, r);
    var t := Next(RefreshDo(w, s, r, RecheckEpoch));
    if t.refreshes[r].phase.EpochChecked? {
      SlotGuardIs(w, t, r);
      var u := Next(RefreshDo(w, t, r, RecheckSlot));
      if u.refreshes[r].phase.Confirmed? {
        WriteBackIs(w, u, r);
      }
    }
    hide RefreshDo;
  }

  lemma EpochGuardIs<K, V>(w: World<K, V>, s: State<K, V>, r: nat)
    requires RefreshCan(s, r, RecheckEpoch)
    ensures var t, rf := RefreshDo(w, s, r, RecheckEpoch), s.refreshes[r];
            && r in t.refreshes && t.slots == s.slots && t.clock == s.clock
            && if rf.epochBefore == s.epoch
               then t.refreshes[r] == rf.(phase := EpochChecked(rf.phase.load)) && t.metrics == s.metrics
               else && t.refreshes[r] == rf.(phase := Exiting)
                    && t.metrics == s.metrics.(droppedEpoch := s.metrics.droppedEpoch + 1)
  {
  }

  lemma SlotGuardIs<K, V>(w: World<K, V>, s: State<K, V>, r: nat)
    requires RefreshCan(s, r, RecheckSlot)
    ensures var t, rf := RefreshDo(w, s, r, RecheckSlot), s.refreshes[r];
            && r in t.refreshes && t.slots == s.slots && t.clock == s.clock
            && if rf.key in s.slots && s.slots[rf.key] == rf.from
               then t.refreshes[r] == rf.(phase := Confirmed(rf.phase.load)) && t.metrics == s.metrics
               else && t.refreshes[r] == rf.(phase := Exiting)
                    && t.metrics == s.metrics.(droppedEpoch := s.metrics.droppedEpoch + 1)
  {
  }

  lemma WriteBackIs<K, V>(w: World<K, V>, s: State<K, V>, r: nat)
    requires RefreshCan(s, r, WriteBack)
    ensures var t, rf, load := RefreshDo(w, s, r, WriteBack), s.refreshes[r], s.refreshes[r].phase.load;
            && t.slots == s.slots[rf.key := s.stamp] && s.stamp in t.entries
            && t.entries[s.stamp] == Entry(rf.key, load.value, s.clock, load.started, load.readAt)
            && t.metrics == s.metrics.(refreshSuccess := s.metrics.refreshSuccess + 1)
  {
  }

  lemma TaskIsKnown<K, V>(c: Cache<K, V>, r: nat)
    requires c.Valid() && r in c.refreshes
    ensures r < c.stamp && (c.refreshes[r].phase.Running? ==> c.refreshes[r].phase.started < c.stamp)
  {
    EveryState(c.world, c.states, c.events, |c.events|);
    assert RefreshOk(c.world, c.Now(), r);
  }

  // ---- The invalidations. ----

  /**
  The four `invalidate*` functions, the scope telling which. When one returns successfully, the
  epoch has advanced, the invalidation is on record and nothing it covers is left in the map,
  whatever other tasks did between the two steps. Only a predicate may be refused.
  */
  method Invalidate<K, V>(
      c: Cache<K, V>, scope: Scope<K, V>, polls: seq<seq<Event<K, V>>>, refused: bool) returns (ok: bool)
    requires c.Valid()
    modifies c
    ensures c.Valid() && old(c.events) < c.events
    ensures old(c.epoch) < c.epoch && ok == !(refused && scope.ByPredicate())
    ensures ok ==>
              && Invalidation(scope, old(c.stamp)) in c.done
              && forall k :: k in c.slots ==> c.slots[k] in c.entries && !scope.Covers(k, c.entries[c.slots[k]].value)
    ensures polls == [] ==> RemovedAlone(old(c.Now()), c.Now(), scope, ok)
  {
    hide IsRun, Apply, Enabled, RemovedAlone;
    ghost var s := c.Now();
    var i := Announce(c, scope, polls);
    if polls == [] { RemovesAlone(c.world, s, c.Now(), i); }
    ok := !(refused && scope.ByPredicate());
    if ok {
      TakesEffect(c, i);
      c.Step(InvalidateApply(i));
    } else {
      Withdrawn(c.world, c.Now(), i);
      c.Step(InvalidateFail(i));
    }
  }

  /** What an invalidation by itself does to the map: exactly what it names is gone, or nothing if refused. */
  ghost predicate RemovedAlone<K, V>(s: State<K, V>, t: State<K, V>, scope: Scope<K, V>, ok: bool) {
    && t.entries == s.entries
    && (forall k :: k in s.slots ==> s.slots[k] in s.entries)
    && t.slots == if ok then Remainder(s.slots, s.entries, scope) else s.slots
  }

  lemma RemovesAlone<K, V>(w: World<K, V>, s: State<K, V>, t: State<K, V>, i: nat)
    requires (forall k :: k in s.slots ==> s.slots[k] in s.entries) && t.slots == s.slots && t.entries == s.entries
    requires i in t.pending
    ensures RemovedAlone(s, Apply(w, t, InvalidateApply(i)), t.pending[i], true)
    ensures t.pending[i].ByPredicate() ==> RemovedAlone(s, Apply(w, t, InvalidateFail(i)), t.pending[i], false)
  {
    RemainderIs(s.slots, s.entries, t.pending[i]);
  }

  /** `invalidate`: the key is not in the map when it returns. */
  method InvalidateKey<K, V>(c: Cache<K, V>, key: K, polls: seq<seq<Event<K, V>>>, refused: bool)
    requires c.Valid()
    modifies c
    ensures c.Valid() && old(c.events) < c.events && old(c.epoch) < c.epoch
    ensures key !in c.slots
    ensures polls == [] ==> c.slots == old(c.slots) - {key} && c.entries == old(c.entries)
  {
    hide IsRun;
    var ok := Invalidate(c, OneKey(key), polls, refused);
  }

  /** `invalidate_all`: the map is empty when it returns. */
  method InvalidateAll<K, V>(c: Cache<K, V>, polls: seq<seq<Event<K, V>>>, refused: bool)
    requires c.Valid()
    modifies c
    ensures c.Valid() && old(c.events) < c.events && old(c.epoch) < c.epoch
    ensures c.slots == map[]
  {
    hide IsRun;
    var ok := Invalidate(c, Everything, polls, refused);
  }

  /** `invalidate_if`: unless the predicate is refused, no key in the map satisfies it; those that did not stay. */
  method InvalidateIf<K, V>(
      c: Cache<K, V>, keys: K -> bool, polls: seq<seq<Event<K, V>>>, refused: bool) returns (ok: bool)
    requires c.Valid()
    modifies c
    ensures c.Valid() && old(c.events) < c.events && old(c.epoch) < c.epoch && ok == !refused
    ensures ok ==> forall k :: k in c.slots ==> !keys(k)
    ensures polls == [] ==>
              c.slots == map k | k in old(c.slots) && (!ok || !keys(k)) :: old(c.slots)[k]
  {
    hide IsRun;
    ok := Invalidate(c, KeysWhere(keys), polls, refused);
  }

  /** `invalidate_if_value`: the same of the cached values. */
  method InvalidateIfValue<K, V>(
      c: Cache<K, V>, values: Option<V> -> bool, polls: seq<seq<Event<K, V>>>, refused: bool) returns (ok: bool)
    requires c.Valid()
    modifies c
    ensures c.Valid() && old(c.events) < c.events && old(c.epoch) < c.epoch && ok == !refused
    ensures ok ==> forall k :: k in c.slots ==> c.slots[k] in c.entries && !values(c.entries[c.slots[k]].value)
    ensures polls == [] ==>
              && c.entries == old(c.entries)
              && forall k :: k in old(c.slots) ==>
                   && old(c.slots)[k] in c.entries
                   && (k in c.slots <==> !ok || !values(c.entries[old(c.slots)[k]].value))
                   && (k in c.slots ==> c.slots[k] == old(c.slots)[k])
  {
    hide IsRun;
    ok := Invalidate(c, ValuesWhere(values), polls, refused);
  }

  /** The epoch moves before the map is told. */
  method Announce<K, V>(c: Cache<K, V>, scope: Scope<K, V>, polls: seq<seq<Event<K, V>>>) returns (i: nat)
    requires c.Valid()
    modifies c
    ensures c.Valid() && old(c.events) < c.events && i == old(c.stamp) && old(c.epoch) < c.epoch
    ensures i in c.pending && c.pending[i] == scope
    ensures forall k :: k in old(c.slots) ==> old(c.slots)[k] in old(c.entries)
    ensures polls == [] ==> c.slots == old(c.slots) && c.entries == old(c.entries)
  {
    SlotsHaveEntries(c);
    hide IsRun;
    i := c.stamp;
    c.Step(InvalidateBegin(scope));
    Pause(c, polls, 0, i);
  }

  lemma SlotsHaveEntries<K, V>(c: Cache<K, V>)
    requires c.Valid()
    ensures forall k :: k in c.slots ==> c.slots[k] in c.entries
  {
    EveryState(c.world, c.states, c.events, |c.events|);
    forall k | k in c.slots ensures c.slots[k] in c.entries {
      assert EntryFor(c.Now(), c.slots[k], k);
    }
  }

  lemma TakesEffect<K, V>(c: Cache<K, V>, i: nat)
    requires c.Valid() && i in c.pending
    ensures Enabled(c.Now(), InvalidateApply(i))
    ensures var t := Apply(c.world, c.Now(), InvalidateApply(i));
            && t.epoch == c.epoch && Invalidation(c.pending[i], i) in t.done
            && forall k :: k in t.slots ==>
                 t.slots[k] in t.entries && !c.pending[i].Covers(k, t.entries[t.slots[k]].value)
  {
    EveryState(c.world, c.states, c.events, |c.events|);
    var s := c.Now();
    var t := Apply(c.world, s, InvalidateApply(i));
    assert t.done[|t.done| - 1] == Invalidation(s.pending[i], i);
    forall k | k in t.slots ensures t.slots[k] in t.entries && !s.pending[i].Covers(k, t.entries[t.slots[k]].value) {
      assert k in s.slots && EntryFor(s, s.slots[k], k);
    }
  }

  lemma Withdrawn<K, V>(w: World<K, V>, s: State<K, V>, i: nat)
    requires i in s.pending && s.pending[i].ByPredicate()
    ensures Enabled(s, InvalidateFail(i)) && Apply(w, s, InvalidateFail(i)).epoch == s.epoch
  {}
}
