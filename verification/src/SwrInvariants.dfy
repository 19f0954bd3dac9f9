/**
What every event of the cache keeps, whatever the interleaving: the shape of the state, the
refresh flags, the accounting of the counters, and that every answer is a value the source held.
*/
module SwrInvariants {
  import opened Wrappers
  import opened SwrModel

  function TtlFor<V>(c: Config, value: Option<V>): nat {
    if value.Some? then c.ttl else c.negativeTtl
  }

  /** `e` is an entry for `k`, so far as a task holding it may assume. */
  ghost predicate EntryFor<K, V>(s: State<K, V>, e: nat, k: K) {
    e in s.entries && s.entries[e].key == k && e < s.stamp
  }

  ghost predicate Usable<K, V>(w: World<K, V>, s: State<K, V>, c: Call<K>, e: nat) {
    && EntryFor(s, e, c.key) && c.readClock < s.entries[e].fetchedAt + TtlFor(w.config, s.entries[e].value)
    && s.entries[e].value.Some? && w.config.softTtl <= Age(c.readClock, s.entries[e])
  }

  ghost predicate EntryOk<K, V>(w: World<K, V>, s: State<K, V>, e: nat)
    requires e in s.entries
  {
    var en := s.entries[e];
    && 1 <= en.started <= en.readAt <= e < s.stamp
    && en.started < e
    && en.fetchedAt <= s.clock
    && en.value == w.source(en.readAt, en.key)
  }

  ghost predicate FlightOk<K, V>(s: State<K, V>, f: nat)
    requires f in s.flights
  {
    var fl := s.flights[f];
    && f < fl.started < s.stamp
    && (fl.phase.Made? || fl.phase.Inserted? ==>
          EntryFor(s, fl.phase.entry, fl.key) && s.entries[fl.phase.entry].started == fl.started)
  }

  ghost predicate Airborne<K, V>(s: State<K, V>, f: nat) {
    f in s.flights && (s.flights[f].phase.Loading? || s.flights[f].phase.Made?)
  }

  /** What call `g` may rely on, standing at `c`. */
  ghost predicate StandsAt<K, V>(w: World<K, V>, s: State<K, V>, g: nat, c: Call<K>) {
    match c.pc
    case StaleHit(e) => Usable(w, s, c, e)
    case WonCas(e) => Usable(w, s, c, e)
    case Ready(eb) => eb <= s.epoch && g !in s.flights
    case Leading(eb) =>
      eb <= s.epoch && Airborne(s, g) && s.flights[g].key == c.key && c.key in s.active && s.active[c.key] == g
    case Waiting(eb, f) => eb <= s.epoch && f in s.flights && s.flights[f].key == c.key && g !in s.flights
    case Holding(eb, e, _) => eb <= s.epoch && EntryFor(s, e, c.key)
    case Condemned(e, _) => EntryFor(s, e, c.key)
    case _ => g !in s.flights
  }

  ghost predicate CallOk<K, V>(w: World<K, V>, s: State<K, V>, g: nat)
    requires g in s.calls
  {
    g < s.stamp && s.calls[g].readClock <= s.clock && StandsAt(w, s, g, s.calls[g])
  }

  ghost predicate ActiveOk<K, V>(s: State<K, V>, k: K)
    requires k in s.active
  {
    var g := s.active[k];
    && Airborne(s, g) && s.flights[g].key == k
    && g in s.calls && s.calls[g].pc.Leading? && s.calls[g].key == k
  }

  ghost predicate LoadOf<K, V>(w: World<K, V>, s: State<K, V>, r: nat, k: K, load: Load<V>) {
    r < load.started <= load.readAt < s.stamp && load.value == w.source(load.readAt, k)
  }

  ghost predicate RefreshOk<K, V>(w: World<K, V>, s: State<K, V>, r: nat)
    requires r in s.refreshes
  {
    var rf := s.refreshes[r];
    && rf.from < r < s.stamp
    && EntryFor(s, rf.from, rf.key)
    && s.entries[rf.from].value.Some? && w.config.softTtl <= Age(s.clock, s.entries[rf.from])
    && rf.epochBefore <= s.epoch
    && match rf.phase
       case Running(started) => r < started < s.stamp
       case Loaded(load) => LoadOf(w, s, r, rf.key, load)
       case EpochChecked(load) => LoadOf(w, s, r, rf.key, load)
       case Confirmed(load) => LoadOf(w, s, r, rf.key, load)
       case _ => true
  }

  ghost predicate OutcomeOk<K, V>(w: World<K, V>, s: State<K, V>, k: K, readClock: nat, at: nat, outcome: Outcome) {
    match outcome
    case Served(e) =>
      EntryFor(s, e, k) && e < at && readClock < s.entries[e].fetchedAt + TtlFor(w.config, s.entries[e].value)
    case Fetched(e) => EntryFor(s, e, k) && e < at
    case _ => true
  }

  ghost predicate AnswerOk<K, V>(w: World<K, V>, s: State<K, V>, a: Return<K>) {
    a.begun < a.at < s.stamp && OutcomeOk(w, s, a.key, a.readClock, a.at, a.outcome)
  }

  ghost predicate EntriesOk<K, V>(w: World<K, V>, s: State<K, V>) {
    forall e :: e in s.entries ==> EntryOk(w, s, e)
  }

  ghost predicate SlotsOk<K, V>(s: State<K, V>) {
    forall k :: k in s.slots ==> EntryFor(s, s.slots[k], k)
  }

  ghost predicate FlightsOk<K, V>(s: State<K, V>) {
    forall f :: f in s.flights ==> FlightOk(s, f)
  }

  ghost predicate ActivesOk<K, V>(s: State<K, V>) {
    forall k :: k in s.active ==> ActiveOk(s, k)
  }

  ghost predicate CallsOk<K, V>(w: World<K, V>, s: State<K, V>) {
    forall g :: g in s.calls ==> CallOk(w, s, g)
  }

  ghost predicate RefreshesOk<K, V>(w: World<K, V>, s: State<K, V>) {
    forall r :: r in s.refreshes ==> RefreshOk(w, s, r)
  }

  ghost predicate InvalidationsOk<K, V>(s: State<K, V>) {
    && s.lastBump < s.stamp
    && (forall i :: i in s.pending ==> i <= s.lastBump)
    && (forall i :: 0 <= i < |s.done| ==> s.done[i].at <= s.lastBump)
  }

  ghost predicate AnswersOk<K, V>(w: World<K, V>, s: State<K, V>) {
    forall i :: 0 <= i < |s.answers| ==> AnswerOk(w, s, s.answers[i])
  }

  ghost predicate Shape<K, V>(w: World<K, V>, s: State<K, V>) {
    && EntriesOk(w, s)
    && SlotsOk(s)
    && FlightsOk(s)
    && ActivesOk(s)
    && CallsOk(w, s)
    && RefreshesOk(w, s)
    && InvalidationsOk(s)
    && AnswersOk(w, s)
  }

  // ---- What the steps leave alone. ----

  /** What a step of call `g` leaves alone, beside the call itself. */
  lemma CallFrame<K, V>(w: World<K, V>, s: State<K, V>, g: nat, step: CallStep)
    requires CallCan(s, g, step)
    ensures var t := CallDo(w, s, g, step);
            && t.calls == Take(s, g, StepMove(w, s, g, step)).calls
            && t.answers == Take(s, g, StepMove(w, s, g, step)).answers
            && t.epoch == s.epoch && t.clock == s.clock && t.stamp == s.stamp
            && t.pending == s.pending && t.done == s.done && t.lastBump == s.lastBump
            && (!step.Spawn? ==> t.refreshes == s.refreshes)
            && (!step.Cas? ==> t.flags == s.flags)
            && (!step.LoadOk? ==> t.entries == s.entries)
            && (!step.Lookup? && !step.Cas? && !step.Evacuate? ==> t.metrics == s.metrics)
  {
    match step
    case LoadOk(_) => assert s.calls[g := s.calls[g].(pc := s.calls[g].pc)] == s.calls;
    case _ =>
  }

  /** The steps of `load_single_flight` that start, end or publish a load. */
  predicate Loads(step: CallStep) {
    step.TryGetWith? || step.LoadOk? || step.LoadErr? || step.LoadPanic? || step.Insert?
  }

  /** Apart from those, a step leaves the loads alone and at most empties its own key's slot. */
  lemma LoadFrame<K, V>(w: World<K, V>, s: State<K, V>, g: nat, step: CallStep)
    requires CallCan(s, g, step)
    ensures var t := CallDo(w, s, g, step);
            && (!Loads(step) ==>
                  && t.entries == s.entries && t.flights == s.flights && t.active == s.active && t.latest == s.latest
                  && t.slots == if step.DropCurrent? || step.Evacuate? then s.slots - {s.calls[g].key} else s.slots)
            && (!step.Insert? ==> t.latest == s.latest)
            && (Loads(step) && !step.Insert? ==> t.slots == s.slots)
  {
  }

  /** What a step of refresh `r` leaves alone. */
  lemma RefreshFrame<K, V>(w: World<K, V>, s: State<K, V>, r: nat, step: RefreshStep)
    requires RefreshCan(s, r, step)
    ensures var t := RefreshDo(w, s, r, step);
            && t.calls == s.calls && t.answers == s.answers
            && t.epoch == s.epoch && t.clock == s.clock && t.stamp == s.stamp
            && t.pending == s.pending && t.done == s.done && t.lastBump == s.lastBump
            && t.flights == s.flights && t.active == s.active
            && (!step.Exit? ==>
                  t.flags == s.flags && r in t.refreshes &&
                  t.refreshes == s.refreshes[r := s.refreshes[r].(phase := t.refreshes[r].phase)])
            && (!step.WriteBack? ==> t.slots == s.slots && t.entries == s.entries && t.latest == s.latest)
  {
  }

  // ---- What no event takes back. ----

  ghost predicate Evolves<K, V>(s: State<K, V>, t: State<K, V>) {
    && s.stamp < t.stamp && s.clock <= t.clock && s.epoch <= t.epoch
    && (forall e :: e in s.entries ==> e in t.entries && t.entries[e] == s.entries[e])
    && (forall f :: f in s.flights ==>
          f in t.flights && t.flights[f].key == s.flights[f].key && t.flights[f].started == s.flights[f].started)
  }

  lemma EntriesKept<K, V>(w: World<K, V>, s: State<K, V>, t: State<K, V>)
    requires EntriesOk(w, s) && Evolves(s, t)
    requires forall e :: e in t.entries ==> e in s.entries || EntryOk(w, t, e)
    ensures EntriesOk(w, t)
  {}

  lemma SlotsKept<K, V>(s: State<K, V>, t: State<K, V>)
    requires SlotsOk(s) && Evolves(s, t)
    requires forall k :: k in t.slots ==> (k in s.slots && t.slots[k] == s.slots[k]) || EntryFor(t, t.slots[k], k)
    ensures SlotsOk(t)
  {}

  ghost predicate SameFlight<K, V>(s: State<K, V>, t: State<K, V>, f: nat) {
    f in s.flights && f in t.flights && t.flights[f] == s.flights[f]
  }

  lemma FlightsKept<K, V>(s: State<K, V>, t: State<K, V>)
    requires FlightsOk(s) && Evolves(s, t)
    requires forall f :: f in t.flights ==> SameFlight(s, t, f) || FlightOk(t, f)
    ensures FlightsOk(t)
  {}

  /** `g` is the same call in both states and, if it leads, leads the same flight. */
  ghost predicate SameCall<K, V>(s: State<K, V>, t: State<K, V>, g: nat) {
    && g in s.calls && g in t.calls && t.calls[g] == s.calls[g]
    && (g in t.flights ==> g in s.flights)
    && (t.calls[g].pc.Leading? ==>
          SameFlight(s, t, g) &&
          var k := t.calls[g].key; k in s.active && k in t.active && s.active[k] == t.active[k])
  }

  lemma ActivesKept<K, V>(s: State<K, V>, t: State<K, V>)
    requires ActivesOk(s)
    requires forall k :: k in t.active ==>
               (k in s.active && s.active[k] == t.active[k] && SameCall(s, t, t.active[k])) || ActiveOk(t, k)
    ensures ActivesOk(t)
  {
    forall k | k in t.active ensures ActiveOk(t, k) {
      if k in s.active { assert ActiveOk(s, k); }
    }
  }

  lemma CallsKept<K, V>(w: World<K, V>, s: State<K, V>, t: State<K, V>)
    requires CallsOk(w, s) && Evolves(s, t)
    requires forall g :: g in t.calls ==> SameCall(s, t, g) || CallOk(w, t, g)
    ensures CallsOk(w, t)
  {
    forall g | g in t.calls ensures CallOk(w, t, g) {
      if SameCall(s, t, g) { assert CallOk(w, s, g); }
    }
  }

  lemma RefreshesKept<K, V>(w: World<K, V>, s: State<K, V>, t: State<K, V>)
    requires RefreshesOk(w, s) && Evolves(s, t)
    requires forall r :: r in t.refreshes ==>
               (r in s.refreshes && t.refreshes[r] == s.refreshes[r]) || RefreshOk(w, t, r)
    ensures RefreshesOk(w, t)
  {}

  lemma AnswersKept<K, V>(w: World<K, V>, s: State<K, V>, t: State<K, V>)
    requires AnswersOk(w, s) && Evolves(s, t)
    requires t.answers == s.answers ||
             exists a :: t.answers == s.answers + [a] && AnswerOk(w, t, a)
    ensures AnswersOk(w, t)
  {
    forall i | 0 <= i < |t.answers| ensures AnswerOk(w, t, t.answers[i]) {
      if i < |s.answers| {
        assert AnswerOk(w, s, s.answers[i]);
      }
    }
  }

  // ---- Steps that touch one call. ----

  /**
  `t` is the state after a step that changed call `g`, not a leader before or after, and that may
  have emptied slots; loads, entries, refreshes and invalidations are untouched.
  */
  ghost predicate OnlyCall<K, V>(s: State<K, V>, t: State<K, V>, g: nat) {
    && t.stamp == s.stamp + 1 && t.clock == s.clock && t.epoch == s.epoch && t.lastBump == s.lastBump
    && t.entries == s.entries && t.flights == s.flights && t.active == s.active
    && t.refreshes == s.refreshes && t.pending == s.pending && t.done == s.done
    && (forall k :: k in t.slots ==> k in s.slots && t.slots[k] == s.slots[k])
    && (forall h :: h in t.calls && h != g ==> h in s.calls && t.calls[h] == s.calls[h])
    && (forall h :: h in s.calls && h != g ==> h in t.calls)
    && (g in s.calls ==> !s.calls[g].pc.Leading?)
  }

  lemma OthersStayActive<K, V>(w: World<K, V>, s: State<K, V>, t: State<K, V>, g: nat)
    requires ActivesOk(s) && CallsOk(w, s) && OnlyCall(s, t, g)
    ensures forall k :: k in t.active ==> k in s.active && s.active[k] == t.active[k] && SameCall(s, t, t.active[k])
    ensures forall h :: h in t.calls && h != g ==> SameCall(s, t, h)
  {
    forall k | k in t.active ensures SameCall(s, t, t.active[k]) {
      assert ActiveOk(s, k);
    }
    forall h | h in t.calls && h != g ensures SameCall(s, t, h) {
      assert CallOk(w, s, h);
    }
  }

  lemma ShapeOnCall<K, V>(w: World<K, V>, s: State<K, V>, t: State<K, V>, g: nat)
    requires Shape(w, s) && OnlyCall(s, t, g)
    requires g in t.calls ==> CallOk(w, t, g)
    requires t.answers == s.answers ||
             exists a :: t.answers == s.answers + [a] && AnswerOk(w, t, a)
    ensures Shape(w, t)
  {
    hide EntriesOk, SlotsOk, FlightsOk, ActivesOk, CallsOk, RefreshesOk, AnswersOk;
    hide CallOk, AnswerOk, ActiveOk, FlightOk, RefreshOk, EntryOk, EntryFor;
    OthersStayActive(w, s, t, g);
    EntriesKept(w, s, t);
    SlotsKept(s, t);
    FlightsKept(s, t);
    ActivesKept(s, t);
    CallsKept(w, s, t);
    RefreshesKept(w, s, t);
    AnswersKept(w, s, t);
  }

  ghost predicate MoveOk<K, V>(w: World<K, V>, s: State<K, V>, g: nat, move: Move)
    requires g in s.calls
  {
    match move
    case Goto(pc) => !pc.Leading? && StandsAt(w, s, g, s.calls[g].(pc := pc))
    case Answer(outcome) => OutcomeOk(w, s, s.calls[g].key, s.calls[g].readClock, s.stamp, outcome)
  }

  /** Call `g`, not a leader, takes a sound move, dropping slots and setting flags on the way. */
  lemma ShapeTake<K, V>(
      w: World<K, V>, s: State<K, V>, g: nat, move: Move, slots: map<K, nat>, flags: set<nat>, m: Metrics)
    requires Shape(w, s) && g in s.calls && !s.calls[g].pc.Leading?
    requires forall k :: k in slots ==> k in s.slots && slots[k] == s.slots[k]
    requires MoveOk(w, s, g, move)
    ensures Shape(w, Next(Take(s, g, move).(slots := slots, flags := flags, metrics := m)))
  {
    hide EntriesOk, SlotsOk, FlightsOk, ActivesOk, RefreshesOk, AnswersOk, InvalidationsOk;
    hide ActiveOk, FlightOk, RefreshOk, EntryOk;
    assert CallOk(w, s, g);
    var t := Next(Take(s, g, move).(slots := slots, flags := flags, metrics := m));
    if move.Answer? {
      var a := Return(s.calls[g].key, g, s.calls[g].readClock, s.stamp, move.outcome);
      assert t.answers == s.answers + [a] && AnswerOk(w, t, a);
    }
    ShapeOnCall(w, s, t, g);
  }

  lemma Known<K, V>(w: World<K, V>, s: State<K, V>, g: nat)
    requires Shape(w, s) && g in s.calls
    ensures StandsAt(w, s, g, s.calls[g])
    ensures s.calls[g].key in s.slots ==> EntryFor(s, s.slots[s.calls[g].key], s.calls[g].key)
  {
    assert CallOk(w, s, g);
  }

  lemma FlightKnown<K, V>(w: World<K, V>, s: State<K, V>, f: nat)
    requires Shape(w, s) && f in s.flights
    ensures FlightOk(s, f)
  {}

  lemma ShapeBegin<K, V>(w: World<K, V>, s: State<K, V>, k: K)
    requires Shape(w, s)
    ensures Shape(w, Next(DoBegin(s, k)))
  {
    hide EntriesOk, SlotsOk, FlightsOk, ActivesOk, RefreshesOk, AnswersOk, InvalidationsOk;
    hide ActiveOk, FlightOk, RefreshOk, EntryOk;
    Unused(w, s);
    ShapeOnCall(w, s, Next(DoBegin(s, k)), s.stamp);
  }

  lemma ShapeLookup<K, V>(w: World<K, V>, s: State<K, V>, g: nat)
    requires Shape(w, s) && CallCan(s, g, Lookup)
    ensures Shape(w, Next(DoLookup(w, s, g)))
  {
    hide Shape;
    Known(w, s, g);
    ShapeTake(w, s, g, LookupMove(w, s, g), s.slots, s.flags, LookupMetrics(w, s, g));
  }

  lemma ShapeCas<K, V>(w: World<K, V>, s: State<K, V>, g: nat)
    requires Shape(w, s) && g in s.calls && s.calls[g].pc.StaleHit?
    ensures Shape(w, Next(DoCas(s, g)))
  {
    hide Shape;
    Known(w, s, g);
    var e := s.calls[g].pc.entry;
    var move := if e in s.flags then Answer(Served(e)) else Goto(WonCas(e));
    ShapeTake(w, s, g, move, s.slots, s.flags + {e}, DoCas(s, g).metrics);
  }

  lemma ShapeDropCurrent<K, V>(w: World<K, V>, s: State<K, V>, g: nat)
    requires Shape(w, s) && g in s.calls && s.calls[g].pc.Missed?
    ensures Shape(w, Next(DoDropCurrent(s, g)))
  {
    hide Shape;
    Known(w, s, g);
    ShapeTake(w, s, g, Goto(Dropped), s.slots - {s.calls[g].key}, s.flags, s.metrics);
  }

  lemma ShapeCapture<K, V>(w: World<K, V>, s: State<K, V>, g: nat)
    requires Shape(w, s) && g in s.calls && s.calls[g].pc.Dropped?
    ensures Shape(w, Next(Take(s, g, Goto(Ready(s.epoch)))))
  {
    hide Shape;
    Known(w, s, g);
    ShapeTake(w, s, g, Goto(Ready(s.epoch)), s.slots, s.flags, s.metrics);
  }

  lemma ShapeWake<K, V>(w: World<K, V>, s: State<K, V>, g: nat)
    requires Shape(w, s) && CallCan(s, g, Wake)
    ensures Shape(w, Next(Take(s, g, WakeMove(s, g))))
  {
    hide Shape;
    Known(w, s, g);
    FlightKnown(w, s, s.calls[g].pc.flight);
    ShapeTake(w, s, g, WakeMove(s, g), s.slots, s.flags, s.metrics);
  }

  lemma ShapeCheckEpoch<K, V>(w: World<K, V>, s: State<K, V>, g: nat)
    requires Shape(w, s) && g in s.calls && s.calls[g].pc.Holding?
    ensures Shape(w, Next(Take(s, g, CheckEpochMove(s, g))))
  {
    hide Shape;
    Known(w, s, g);
    ShapeTake(w, s, g, CheckEpochMove(s, g), s.slots, s.flags, s.metrics);
  }

  lemma ShapeEvacuate<K, V>(w: World<K, V>, s: State<K, V>, g: nat)
    requires Shape(w, s) && g in s.calls && s.calls[g].pc.Condemned?
    ensures Shape(w, Next(DoEvacuate(s, g)))
  {
    hide Shape;
    Known(w, s, g);
    var c := s.calls[g];
    ShapeTake(w, s, g, Answer(Fetched(c.pc.entry)), s.slots - {c.key}, s.flags, DoEvacuate(s, g).metrics);
  }

  // ---- Steps of a leader. ----

  lemma ShapeTryGetWith<K, V>(w: World<K, V>, s: State<K, V>, g: nat)
    requires Shape(w, s) && g in s.calls && s.calls[g].pc.Ready?
    ensures Shape(w, Next(DoTryGetWith(s, g)))
  {
    if TryGetWithMove(s, g).pc.Leading? {
      ShapeLead(w, s, g);
    } else {
      Known(w, s, g);
      assert s.calls[g].key in s.active ==> ActiveOk(s, s.calls[g].key);
      hide Shape;
      ShapeTake(w, s, g, TryGetWithMove(s, g), s.slots, s.flags, s.metrics);
    }
  }

  /** A step by `g` that concerns its own call, its own flight and its key's activity. */
  ghost predicate OnlyLeader<K, V>(s: State<K, V>, t: State<K, V>, g: nat)
    requires g in s.calls
  {
    && t.calls - {g} == s.calls - {g}
    && t.flights - {g} == s.flights - {g}
    && t.active - {s.calls[g].key} == s.active - {s.calls[g].key}
  }

  lemma OthersLead<K, V>(w: World<K, V>, s: State<K, V>, t: State<K, V>, g: nat)
    requires Shape(w, s) && g in s.calls && OnlyLeader(s, t, g)
    requires s.calls[g].key in s.active ==> s.active[s.calls[g].key] == g
    ensures forall h :: h in t.calls && h != g ==> SameCall(s, t, h)
    ensures forall k :: k in t.active && k != s.calls[g].key ==>
              k in s.active && s.active[k] == t.active[k] && SameCall(s, t, t.active[k])
    ensures forall f :: f in t.flights && f != g ==> SameFlight(s, t, f)
    ensures forall f :: f in s.flights && f != g ==> SameFlight(s, t, f)
  {
    OtherLeaders(w, s, g);
    hide Shape;
    var k0 := s.calls[g].key;
    forall f | (f in t.flights || f in s.flights) && f != g ensures SameFlight(s, t, f) {
      assert f in t.flights - {g} && f in s.flights - {g};
      assert (t.flights - {g})[f] == (s.flights - {g})[f];
    }
    forall k | (k in t.active || k in s.active) && k != k0
      ensures k in s.active && k in t.active && s.active[k] == t.active[k]
    {
      assert k in t.active - {k0} && k in s.active - {k0};
      assert (t.active - {k0})[k] == (s.active - {k0})[k];
    }
    forall h | (h in t.calls || h in s.calls) && h != g ensures SameCall(s, t, h) {
      assert h in t.calls - {g} && h in s.calls - {g};
      assert (t.calls - {g})[h] == (s.calls - {g})[h];
    }
  }

  lemma ShapeLead<K, V>(w: World<K, V>, s: State<K, V>, g: nat)
    requires Shape(w, s) && g in s.calls && s.calls[g].pc.Ready?
    requires s.calls[g].key !in s.slots && s.calls[g].key !in s.active
    ensures Shape(w, Next(DoTryGetWith(s, g)))
  {
    hide Shape, EntriesOk, SlotsOk, FlightsOk, ActivesOk, CallsOk, RefreshesOk, AnswersOk, InvalidationsOk;
    hide RefreshOk, SameCall, EntryOk, AnswerOk;
    hide FlightOk, CallOk, ActiveOk, OnlyLeader;
    var t := Next(DoTryGetWith(s, g));
    Standing(w, s, g);
    NewLeader(w, s, g);
    OthersLead(w, s, t, g);
    InvalidationsKept(s, t);
    hide Evolves;
    Assemble(w, s, t);
  }

  lemma NewLeader<K, V>(w: World<K, V>, s: State<K, V>, g: nat)
    requires Shape(w, s) && g in s.calls && s.calls[g].pc.Ready?
    requires s.calls[g].key !in s.slots && s.calls[g].key !in s.active
    ensures var t := Next(DoTryGetWith(s, g));
            && OnlyLeader(s, t, g) && Evolves(s, t)
            && FlightOk(t, g) && CallOk(w, t, g) && ActiveOk(t, s.calls[g].key)
  {
    hide Shape;
    Standing(w, s, g);
  }

  lemma ShapeLoadOk<K, V>(w: World<K, V>, s: State<K, V>, g: nat, readAt: nat)
    requires Shape(w, s) && LoaderRuns(s, g) && s.flights[g].started <= readAt <= s.stamp
    ensures Shape(w, Next(DoLoadOk(w, s, g, readAt)))
  {
    hide Shape, EntriesOk, SlotsOk, FlightsOk, ActivesOk, CallsOk, RefreshesOk, AnswersOk, InvalidationsOk;
    hide RefreshOk, SameCall, AnswerOk;
    var t := Next(DoLoadOk(w, s, g, readAt));
    Unused(w, s);
    Standing(w, s, g);
    assert OnlyLeader(s, t, g);
    OthersLead(w, s, t, g);
    hide OnlyLeader;
    InvalidationsKept(s, t);
    Assemble(w, s, t);
  }

  lemma ShapeLoadGone<K, V>(w: World<K, V>, s: State<K, V>, g: nat, phase: FlightPhase, outcome: Outcome)
    requires Shape(w, s) && LoaderRuns(s, g)
    requires (phase.FlightFailed? && outcome.Failed?) || (phase.FlightPanicked? && outcome.Panicked?)
    ensures Shape(w, Next(DoLoadGone(s, g, phase, outcome)))
  {
    hide Shape, EntriesOk, SlotsOk, FlightsOk, ActivesOk, CallsOk, RefreshesOk, AnswersOk, InvalidationsOk;
    hide RefreshOk, SameCall, EntryOk;
    var t := Next(DoLoadGone(s, g, phase, outcome));
    Standing(w, s, g);
    assert OnlyLeader(s, t, g);
    OthersLead(w, s, t, g);
    hide OnlyLeader;
    InvalidationsKept(s, t);
    var a := Return(s.calls[g].key, g, s.calls[g].readClock, s.stamp, outcome);
    assert t.answers == s.answers + [a] && AnswerOk(w, t, a);
    Assemble(w, s, t);
  }

  lemma ShapeInsert<K, V>(w: World<K, V>, s: State<K, V>, g: nat)
    requires Shape(w, s) && g in s.calls && s.calls[g].pc.Leading?
    requires g in s.flights && s.flights[g].phase.Made? && s.flights[g].phase.entry in s.entries
    ensures Shape(w, Next(DoInsert(s, g)))
  {
    hide Shape, EntriesOk, SlotsOk, FlightsOk, ActivesOk, CallsOk, RefreshesOk, AnswersOk, InvalidationsOk;
    hide RefreshOk, SameCall, EntryOk, AnswerOk;
    var t := Next(DoInsert(s, g));
    Standing(w, s, g);
    assert OnlyLeader(s, t, g);
    OthersLead(w, s, t, g);
    hide OnlyLeader;
    InvalidationsKept(s, t);
    Assemble(w, s, t);
  }

  lemma Standing<K, V>(w: World<K, V>, s: State<K, V>, g: nat)
    requires Shape(w, s) && g in s.calls
    ensures CallOk(w, s, g) && (g in s.flights ==> FlightOk(s, g)) && InvalidationsOk(s)
  {}

  lemma InvalidationsKept<K, V>(s: State<K, V>, t: State<K, V>)
    requires InvalidationsOk(s) && s.stamp <= t.stamp
    requires t.lastBump == s.lastBump && t.pending == s.pending && t.done == s.done
    ensures InvalidationsOk(t)
  {}

  /** The current stamp names nothing yet. */
  lemma Unused<K, V>(w: World<K, V>, s: State<K, V>)
    requires Shape(w, s)
    ensures s.stamp !in s.entries && s.stamp !in s.calls && s.stamp !in s.flights && s.stamp !in s.refreshes
  {
    assert forall e :: e in s.entries ==> EntryOk(w, s, e);
    assert forall f :: f in s.flights ==> FlightOk(s, f);
    assert forall g :: g in s.calls ==> CallOk(w, s, g);
    assert forall r :: r in s.refreshes ==> RefreshOk(w, s, r);
  }

  /** Every other leader leads its own key, and every other active key has its own leader. */
  lemma OtherLeaders<K, V>(w: World<K, V>, s: State<K, V>, g: nat)
    requires Shape(w, s) && g in s.calls
    ensures forall h :: h in s.calls && h != g && s.calls[h].pc.Leading? ==>
              h in s.flights && s.calls[h].key in s.active && s.active[s.calls[h].key] == h
    ensures forall k :: k in s.active && k != s.calls[g].key ==>
              s.active[k] != g && s.active[k] in s.calls && s.active[k] in s.flights && s.calls[s.active[k]].key == k
    ensures s.calls[g].pc.Leading? ==> forall k :: k in s.active ==> (s.active[k] == g <==> k == s.calls[g].key)
  {
    assert CallOk(w, s, g);
    forall h | h in s.calls && h != g && s.calls[h].pc.Leading?
      ensures h in s.flights && s.calls[h].key in s.active && s.active[s.calls[h].key] == h
    {
      assert CallOk(w, s, h);
    }
    forall k | k in s.active && k != s.calls[g].key
      ensures s.active[k] != g && s.active[k] in s.calls && s.active[k] in s.flights && s.calls[s.active[k]].key == k
    {
      assert ActiveOk(s, k);
    }
  }

  /** The shape of `t` from that of `s`: whatever is not as it was is in order. */
  lemma Assemble<K, V>(w: World<K, V>, s: State<K, V>, t: State<K, V>)
    requires Shape(w, s) && Evolves(s, t) && InvalidationsOk(t)
    requires forall e :: e in t.entries ==> e in s.entries || EntryOk(w, t, e)
    requires forall k :: k in t.slots ==> (k in s.slots && t.slots[k] == s.slots[k]) || EntryFor(t, t.slots[k], k)
    requires forall f :: f in t.flights ==> SameFlight(s, t, f) || FlightOk(t, f)
    requires forall k :: k in t.active ==>
               (k in s.active && s.active[k] == t.active[k] && SameCall(s, t, t.active[k])) || ActiveOk(t, k)
    requires forall g :: g in t.calls ==> SameCall(s, t, g) || CallOk(w, t, g)
    requires forall r :: r in t.refreshes ==>
               (r in s.refreshes && t.refreshes[r] == s.refreshes[r]) || RefreshOk(w, t, r)
    requires t.answers == s.answers || exists a :: t.answers == s.answers + [a] && AnswerOk(w, t, a)
    ensures Shape(w, t)
  {
    hide EntriesOk, SlotsOk, FlightsOk, ActivesOk, CallsOk, RefreshesOk, AnswersOk, InvalidationsOk;
    hide CallOk, AnswerOk, ActiveOk, FlightOk, RefreshOk, EntryOk, EntryFor;
    EntriesKept(w, s, t);
    SlotsKept(s, t);
    FlightsKept(s, t);
    ActivesKept(s, t);
    CallsKept(w, s, t);
    RefreshesKept(w, s, t);
    AnswersKept(w, s, t);
  }

  // ---- Steps away from the calls. ----

  lemma AssembleAway<K, V>(w: World<K, V>, s: State<K, V>, t: State<K, V>)
    requires Shape(w, s) && Evolves(s, t) && InvalidationsOk(t)
    requires t.calls == s.calls && t.flights == s.flights && t.active == s.active && t.answers == s.answers
    requires forall e :: e in t.entries ==> e in s.entries || EntryOk(w, t, e)
    requires forall k :: k in t.slots ==> (k in s.slots && t.slots[k] == s.slots[k]) || EntryFor(t, t.slots[k], k)
    requires forall r :: r in t.refreshes ==>
               (r in s.refreshes && t.refreshes[r] == s.refreshes[r]) || RefreshOk(w, t, r)
    ensures Shape(w, t)
  {
    forall h | h in t.calls ensures SameCall(s, t, h) {
      assert CallOk(w, s, h);
    }
    forall k | k in t.active ensures SameCall(s, t, t.active[k]) {
      assert ActiveOk(s, k);
    }
    hide Shape, RefreshOk, EntryOk, SameCall, CallOk, ActiveOk;
    Assemble(w, s, t);
  }

  lemma ShapePhase<K, V>(w: World<K, V>, s: State<K, V>, r: nat, phase: RefreshPhase<V>, m: Metrics)
    requires Shape(w, s) && r in s.refreshes
    requires RefreshOk(w, Next(SetPhase(s, r, phase)), r)
    ensures Shape(w, Next(SetPhase(s, r, phase).(metrics := m)))
  {
    hide EntriesOk, SlotsOk, FlightsOk, ActivesOk, CallsOk, RefreshesOk, AnswersOk, EntryOk;
    AssembleAway(w, s, Next(SetPhase(s, r, phase).(metrics := m)));
  }

  lemma RefreshKnown<K, V>(w: World<K, V>, s: State<K, V>, r: nat)
    requires Shape(w, s) && r in s.refreshes
    ensures RefreshOk(w, s, r)
  {}

  lemma ShapeStart<K, V>(w: World<K, V>, s: State<K, V>, r: nat)
    requires Shape(w, s) && r in s.refreshes
    ensures Shape(w, Next(SetPhase(s, r, Running(s.stamp))))
    ensures forall m :: Shape(w, Next(SetPhase(s, r, Exiting).(metrics := m)))
  {
    hide Shape;
    RefreshKnown(w, s, r);
    ShapePhase(w, s, r, Running(s.stamp), s.metrics);
    forall m ensures Shape(w, Next(SetPhase(s, r, Exiting).(metrics := m))) {
      ShapePhase(w, s, r, Exiting, m);
    }
  }

  lemma ShapeReceive<K, V>(w: World<K, V>, s: State<K, V>, r: nat, readAt: nat)
    requires Shape(w, s) && r in s.refreshes && s.refreshes[r].phase.Running?
    requires s.refreshes[r].phase.started <= readAt <= s.stamp
    ensures Shape(w, Next(DoReceive(w, s, r, readAt)))
  {
    hide Shape;
    RefreshKnown(w, s, r);
    var rf := s.refreshes[r];
    ShapePhase(w, s, r, Loaded(Load(rf.phase.started, readAt, w.source(readAt, rf.key))), s.metrics);
  }

  lemma ShapeRecheck<K, V>(w: World<K, V>, s: State<K, V>, r: nat, go: bool, phase: RefreshPhase<V>)
    requires Shape(w, s) && r in s.refreshes
    requires RefreshOk(w, Next(SetPhase(s, r, phase)), r)
    ensures Shape(w, Next(GoOrDrop(s, r, go, phase)))
  {
    hide Shape;
    RefreshKnown(w, s, r);
    ShapePhase(w, s, r, if go then phase else Exiting, GoOrDrop(s, r, go, phase).metrics);
  }

  lemma ShapeRecheckEpoch<K, V>(w: World<K, V>, s: State<K, V>, r: nat)
    requires Shape(w, s) && r in s.refreshes && s.refreshes[r].phase.Loaded?
    ensures Shape(w, Next(DoRecheckEpoch(s, r)))
  {
    hide Shape;
    RefreshKnown(w, s, r);
    var rf := s.refreshes[r];
    ShapeRecheck(w, s, r, rf.epochBefore == s.epoch, EpochChecked(rf.phase.load));
  }

  lemma ShapeRecheckSlot<K, V>(w: World<K, V>, s: State<K, V>, r: nat)
    requires Shape(w, s) && r in s.refreshes && s.refreshes[r].phase.EpochChecked?
    ensures Shape(w, Next(DoRecheckSlot(s, r)))
  {
    hide Shape;
    RefreshKnown(w, s, r);
    var rf := s.refreshes[r];
    ShapeRecheck(w, s, r, rf.key in s.slots && s.slots[rf.key] == rf.from, Confirmed(rf.phase.load));
  }

  lemma ShapeWriteBack<K, V>(w: World<K, V>, s: State<K, V>, r: nat)
    requires Shape(w, s) && r in s.refreshes && s.refreshes[r].phase.Confirmed?
    ensures Shape(w, Next(DoWriteBack(s, r)))
  {
    hide EntriesOk, SlotsOk, FlightsOk, ActivesOk, CallsOk, RefreshesOk, AnswersOk;
    RefreshKnown(w, s, r);
    Unused(w, s);
    AssembleAway(w, s, Next(DoWriteBack(s, r)));
  }

  lemma ShapeExit<K, V>(w: World<K, V>, s: State<K, V>, r: nat)
    requires Shape(w, s) && r in s.refreshes
    ensures Shape(w, Next(DoExit(s, r)))
  {
    hide EntriesOk, SlotsOk, FlightsOk, ActivesOk, CallsOk, RefreshesOk, AnswersOk, EntryOk, RefreshOk;
    AssembleAway(w, s, Next(DoExit(s, r)));
  }

  lemma EntryKnown<K, V>(w: World<K, V>, s: State<K, V>, e: nat)
    requires Shape(w, s) && e in s.entries
    ensures EntryOk(w, s, e)
  {}

  /** The call that won the flag captures the epoch, spawns the refresh and answers. */
  lemma ShapeSpawn<K, V>(w: World<K, V>, s: State<K, V>, g: nat)
    requires Shape(w, s) && g in s.calls && s.calls[g].pc.WonCas?
    ensures Shape(w, Next(DoSpawn(s, g)))
  {
    hide Shape, EntriesOk, SlotsOk, FlightsOk, ActivesOk, CallsOk, RefreshesOk, AnswersOk, InvalidationsOk;
    hide SameCall;
    var e := s.calls[g].pc.entry;
    Standing(w, s, g);
    EntryKnown(w, s, e);
    Unused(w, s);
    var t := Next(DoSpawn(s, g));
    SameCallsAfter(w, s, t, g);
    InvalidationsKept(s, t);
    var a := Return(s.calls[g].key, g, s.calls[g].readClock, s.stamp, Served(e));
    assert t.answers == s.answers + [a] && AnswerOk(w, t, a);
    Assemble(w, s, t);
  }

  lemma SameCallsAfter<K, V>(w: World<K, V>, s: State<K, V>, t: State<K, V>, g: nat)
    requires Shape(w, s) && g in s.calls && !s.calls[g].pc.Leading?
    requires t.calls == s.calls - {g} && t.flights == s.flights && t.active == s.active
    ensures forall h :: h in t.calls ==> SameCall(s, t, h)
    ensures forall k :: k in t.active ==> SameCall(s, t, t.active[k])
  {
    forall h | h in t.calls ensures SameCall(s, t, h) {
      assert CallOk(w, s, h);
    }
    forall k | k in t.active ensures SameCall(s, t, t.active[k]) {
      assert ActiveOk(s, k);
    }
  }

  // ---- Time, eviction and invalidation. ----

  lemma ShapeTick<K, V>(w: World<K, V>, s: State<K, V>, amount: nat)
    requires Shape(w, s)
    ensures Shape(w, Next(s.(clock := s.clock + amount)))
  {
    hide EntriesOk, SlotsOk, FlightsOk, ActivesOk, CallsOk, RefreshesOk, AnswersOk, EntryOk, RefreshOk;
    AssembleAway(w, s, Next(s.(clock := s.clock + amount)));
  }

  lemma ShapeEvict<K, V>(w: World<K, V>, s: State<K, V>, k: K)
    requires Shape(w, s)
    ensures Shape(w, Next(s.(slots := s.slots - {k})))
  {
    hide EntriesOk, SlotsOk, FlightsOk, ActivesOk, CallsOk, RefreshesOk, AnswersOk, EntryOk, RefreshOk;
    AssembleAway(w, s, Next(s.(slots := s.slots - {k})));
  }

  lemma ShapeInvalidateBegin<K, V>(w: World<K, V>, s: State<K, V>, scope: Scope<K, V>)
    requires Shape(w, s)
    ensures Shape(w, Next(DoInvalidateBegin(s, scope)))
  {
    hide EntriesOk, SlotsOk, FlightsOk, ActivesOk, CallsOk, RefreshesOk, AnswersOk, EntryOk, RefreshOk;
    AssembleAway(w, s, Next(DoInvalidateBegin(s, scope)));
  }

  lemma ShapeInvalidateApply<K, V>(w: World<K, V>, s: State<K, V>, i: nat)
    requires Shape(w, s) && i in s.pending
    ensures Shape(w, Next(DoInvalidateApply(s, i)))
    ensures Shape(w, Next(s.(pending := s.pending - {i})))
  {
    hide EntriesOk, SlotsOk, FlightsOk, ActivesOk, CallsOk, RefreshesOk, AnswersOk, EntryOk, RefreshOk;
    AssembleAway(w, s, Next(DoInvalidateApply(s, i)));
    AssembleAway(w, s, Next(s.(pending := s.pending - {i})));
  }

  lemma ShapeCallStep<K, V>(w: World<K, V>, s: State<K, V>, g: nat, step: CallStep)
    requires Shape(w, s) && CallCan(s, g, step)
    ensures Shape(w, Next(CallDo(w, s, g, step)))
  {
    hide Shape, DoLookup, DoCas, DoSpawn, DoDropCurrent, DoTryGetWith, DoLoadOk, DoLoadGone, DoInsert,
         DoEvacuate, Take, Next;
    match step
    case Lookup => ShapeLookup(w, s, g);
    case Cas => ShapeCas(w, s, g);
    case Spawn => ShapeSpawn(w, s, g);
    case DropCurrent => ShapeDropCurrent(w, s, g);
    case Capture => ShapeCapture(w, s, g);
    case TryGetWith => ShapeTryGetWith(w, s, g);
    case LoadOk(readAt) => ShapeLoadOk(w, s, g, readAt);
    case LoadErr => ShapeLoadGone(w, s, g, FlightFailed, Failed);
    case LoadPanic => ShapeLoadGone(w, s, g, FlightPanicked, Panicked);
    case Insert => ShapeInsert(w, s, g);
    case Wake => ShapeWake(w, s, g);
    case CheckEpoch => ShapeCheckEpoch(w, s, g);
    case Evacuate => ShapeEvacuate(w, s, g);
  }

  lemma ShapeRefreshStep<K, V>(w: World<K, V>, s: State<K, V>, r: nat, step: RefreshStep)
    requires Shape(w, s) && RefreshCan(s, r, step)
    ensures Shape(w, Next(RefreshDo(w, s, r, step)))
  {
    hide Shape, DoReceive, DoRecheckEpoch, DoRecheckSlot, DoWriteBack, DoExit, Next;
    match step
    case Start => ShapeStart(w, s, r);
    case Receive(readAt) => ShapeReceive(w, s, r, readAt);
    case ReceiveErr => ShapeStart(w, s, r);
    case Panic => ShapeStart(w, s, r);
    case RecheckEpoch => ShapeRecheckEpoch(w, s, r);
    case RecheckSlot => ShapeRecheckSlot(w, s, r);
    case WriteBack => ShapeWriteBack(w, s, r);
    case Exit => ShapeExit(w, s, r);
  }

  lemma ShapeKept<K, V>(w: World<K, V>, s: State<K, V>, ev: Event<K, V>)
    requires Shape(w, s) && Enabled(s, ev)
    ensures Shape(w, Apply(w, s, ev))
  {
    hide Shape, CallDo, RefreshDo, CallCan, RefreshCan, DoBegin, DoInvalidateBegin, DoInvalidateApply, Next;
    match ev
    case Tick(amount) => ShapeTick(w, s, amount);
    case Begin(k) => ShapeBegin(w, s, k);
    case Advance(g, step) => ShapeCallStep(w, s, g, step);
    case Refreshing(r, step) => ShapeRefreshStep(w, s, r, step);
    case InvalidateBegin(scope) => ShapeInvalidateBegin(w, s, scope);
    case InvalidateApply(i) => ShapeInvalidateApply(w, s, i);
    case InvalidateFail(i) => ShapeInvalidateApply(w, s, i);
    case Evict(k) => ShapeEvict(w, s, k);
  }
}
