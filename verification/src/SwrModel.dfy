/**
The stale-while-revalidate cache as a transition system.

Every `await` point and every atomic operation of `get`, `load_single_flight`,
`maybe_spawn_refresh` and the `invalidate*` family is one event. Any number of calls, refresh
tasks and invalidations interleave. The underlying map is taken at its contract: lookups,
inserts and removals are atomic, `try_get_with` runs one loader per key and inserts before it
answers, and eviction may happen at any time.

`stamp` numbers the events of a run. It orders loader starts, invalidations and returns, and it
names what an event creates: a call, an entry (the identity `Arc::ptr_eq` compares), a refresh
task and an invalidation are each identified by the stamp at which they came to be. The backing
source is an arbitrary function of the stamp, so it may change between any two events.
*/
module SwrModel {
  import opened Wrappers

  datatype Config = Config(ttl: nat, softTtl: nat, negativeTtl: nat, maxEntries: nat)

  datatype ConfigError = ZeroTtl | ZeroMaxEntries | SoftTtlExceedsTtl | NegativeTtlExceedsTtl

  function Validate(c: Config): (r: Result<(), ConfigError>)
    ensures r.Ok? <==> 0 < c.ttl && 0 < c.maxEntries && c.softTtl <= c.ttl && c.negativeTtl <= c.ttl
    ensures r == Err(ZeroTtl) <==> c.ttl == 0
    ensures r == Err(ZeroMaxEntries) <==> 0 < c.ttl && c.maxEntries == 0
    ensures r == Err(SoftTtlExceedsTtl) <==> 0 < c.maxEntries && 0 < c.ttl < c.softTtl
    ensures r == Err(NegativeTtlExceedsTtl) <==>
              0 < c.maxEntries && 0 < c.ttl && c.softTtl <= c.ttl < c.negativeTtl
  {
    if c.ttl == 0 then Err(ZeroTtl)
    else if c.maxEntries == 0 then Err(ZeroMaxEntries)
    else if c.softTtl > c.ttl then Err(SoftTtlExceedsTtl)
    else if c.negativeTtl > c.ttl then Err(NegativeTtlExceedsTtl)
    else Ok(())
  }

  /** The configuration and the backing source: `source(t, k)` is what `k` holds at stamp `t`. */
  datatype World<!K, !V> = World(config: Config, source: (nat, K) -> Option<V>)

  /**
  A cache entry. `fetchedAt` is the clock reading at its creation; `started` and `readAt` record
  when the load behind it began and when that load read the source.
  */
  datatype Entry<K, V> = Entry(key: K, value: Option<V>, fetchedAt: nat, started: nat, readAt: nat)

  /** What an explicit invalidation covers. */
  datatype Scope<!K(==), !V> =
    | OneKey(key: K)
    | KeysWhere(keys: K -> bool)
    | ValuesWhere(values: Option<V> -> bool)
    | Everything
  {
    predicate Covers(k: K, v: Option<V>) {
      match this
      case OneKey(key) => k == key
      case KeysWhere(keys) => keys(k)
      case ValuesWhere(values) => values(v)
      case Everything => true
    }

    /** Whether the invalidation is registered with the map as a predicate, which may be refused. */
    predicate ByPredicate() {
      KeysWhere? || ValuesWhere?
    }
  }

  /** An invalidation and the stamp at which it advanced the epoch. */
  datatype Invalidation<!K(==), !V> = Invalidation(scope: Scope<K, V>, at: nat)

  /** Where a `get` call stands. */
  datatype Pc =
    | Begun
    | StaleHit(entry: nat)
    | WonCas(entry: nat)
    | Missed
    | Dropped
    | Ready(epochBefore: nat)
    | Leading(epochBefore: nat)
    | Waiting(epochBefore: nat, flight: nat)
    | Holding(epochBefore: nat, entry: nat, led: bool)
    | Condemned(entry: nat, led: bool)

  /**
  A `get` in progress: its key, its clock reading, and `floor`, the loader start of the last
  entry its key's slot had received when the call began.
  */
  datatype Call<K> = Call(key: K, readClock: nat, floor: nat, pc: Pc)

  datatype FlightPhase = Loading | Made(entry: nat) | Inserted(entry: nat) | FlightFailed | FlightPanicked

  /** One single-flight load, named by the call that leads it. */
  datatype Flight<K> = Flight(key: K, started: nat, phase: FlightPhase)

  datatype Load<V> = Load(started: nat, readAt: nat, value: Option<V>)

  /** A background refresh: the three write-back calls are separate phases. */
  datatype RefreshPhase<V> =
    | Spawned
    | Running(started: nat)
    | Loaded(load: Load<V>)
    | EpochChecked(load: Load<V>)
    | Confirmed(load: Load<V>)
    | Exiting

  datatype Refresh<K, V> = Refresh(key: K, from: nat, epochBefore: nat, phase: RefreshPhase<V>)

  datatype Outcome = Served(entry: nat) | Fetched(entry: nat) | Failed | Panicked

  /** A finished `get`. */
  datatype Return<K> = Return(key: K, begun: nat, readClock: nat, at: nat, outcome: Outcome)

  /**
  The counters of `SwrMetrics`, with three more that split them: `calls` counts the calls begun,
  `hardDrops` the part of `droppedEpoch` counted on the hard-miss path, and `panics` the refreshes
  whose loader panicked.
  */
  datatype Metrics = Metrics(
    hits: nat, staleHits: nat, misses: nat, negativeHits: nat,
    refreshSuccess: nat, refreshFailure: nat, skippedInflight: nat,
    droppedEpoch: nat, invalidations: nat,
    calls: nat, hardDrops: nat, panics: nat)

  /** What a step does to its call: move it on, or let it answer. */
  datatype Move = Goto(pc: Pc) | Answer(outcome: Outcome)

  datatype State<!K(==), !V> = State(
    stamp: nat,
    clock: nat,
    epoch: nat,
    slots: map<K, nat>,
    entries: map<nat, Entry<K, V>>,
    flags: set<nat>,
    calls: map<nat, Call<K>>,
    flights: map<nat, Flight<K>>,
    active: map<K, nat>,
    refreshes: map<nat, Refresh<K, V>>,
    pending: map<nat, Scope<K, V>>,
    done: seq<Invalidation<K, V>>,
    lastBump: nat,
    latest: map<K, nat>,
    answers: seq<Return<K>>,
    metrics: Metrics)

  /** The steps of one `get`, in the order of its code paths. */
  datatype CallStep =
    | Lookup
    | Cas
    | Spawn
    | DropCurrent
    | Capture
    | TryGetWith
    | LoadOk(readAt: nat)
    | LoadErr
    | LoadPanic
    | Insert
    | Wake
    | CheckEpoch
    | Evacuate

  /** The steps of one refresh task. */
  datatype RefreshStep =
    | Start
    | Receive(readAt: nat)
    | ReceiveErr
    | Panic
    | RecheckEpoch
    | RecheckSlot
    | WriteBack
    | Exit

  datatype Event<!K(==), !V> =
    | Tick(amount: nat)
    | Begin(key: K)
    | Advance(call: nat, step: CallStep)
    | Refreshing(task: nat, refreshStep: RefreshStep)
    | InvalidateBegin(scope: Scope<K, V>)
    | InvalidateApply(id: nat)
    | InvalidateFail(id: nat)
    | Evict(key: K)

  function Init<K, V>(): State<K, V> {
    State(1, 0, 0, map[], map[], {}, map[], map[], map[], map[], map[], [], 0, map[], [],
          Metrics(0, 0, 0, 0, 0, 0, 0, 0, 0, 0, 0, 0))
  }

  datatype Verdict = Fresh | Negative | Stale | Expired

  /** How long ago the entry was fetched; it may have been fetched after the clock was read. */
  function Age<K, V>(readClock: nat, e: Entry<K, V>): nat {
    if e.fetchedAt <= readClock then readClock - e.fetchedAt else 0
  }

  /** A clock reading is within `ttl` of the moment something was fetched, which may lie after it. */
  ghost predicate Within(readClock: nat, fetchedAt: nat, ttl: nat) {
    0 < ttl && readClock < fetchedAt + ttl
  }

  /** How `get` judges the entry it found, from its own clock reading. */
  function Judge<K, V>(c: Config, readClock: nat, e: Entry<K, V>): Verdict {
    var age := Age(readClock, e);
    var entryTtl := if e.value.Some? then c.ttl else c.negativeTtl;
    if age >= entryTtl then Expired
    else if e.value.None? then Negative
    else if age < c.softTtl then Fresh
    else Stale
  }

  /** Flight `g` is led by call `g` and its loader still runs. */
  predicate LoaderRuns<K, V>(s: State<K, V>, g: nat) {
    g in s.calls && s.calls[g].pc.Leading? && g in s.flights && s.flights[g].phase.Loading?
  }

  predicate CallCan<K, V>(s: State<K, V>, g: nat, step: CallStep) {
    g in s.calls &&
    var c := s.calls[g];
    match step
    case Lookup => c.pc.Begun? && (c.key in s.slots ==> s.slots[c.key] in s.entries)
    case Cas => c.pc.StaleHit?
    case Spawn => c.pc.WonCas?
    case DropCurrent => c.pc.Missed?
    case Capture => c.pc.Dropped?
    case TryGetWith => c.pc.Ready?
    case LoadOk(readAt) => LoaderRuns(s, g) && s.flights[g].started <= readAt <= s.stamp
    case LoadErr => LoaderRuns(s, g)
    case LoadPanic => LoaderRuns(s, g)
    case Insert =>
      c.pc.Leading? && g in s.flights && s.flights[g].phase.Made? && s.flights[g].phase.entry in s.entries
    case Wake =>
      c.pc.Waiting? && c.pc.flight in s.flights &&
      !s.flights[c.pc.flight].phase.Loading? && !s.flights[c.pc.flight].phase.Made?
    case CheckEpoch => c.pc.Holding?
    case Evacuate => c.pc.Condemned?
  }

  predicate RefreshCan<K, V>(s: State<K, V>, r: nat, step: RefreshStep) {
    r in s.refreshes &&
    var phase := s.refreshes[r].phase;
    match step
    case Start => phase.Spawned?
    case Receive(readAt) => phase.Running? && phase.started <= readAt <= s.stamp
    case ReceiveErr => phase.Running?
    case Panic => phase.Running?
    case RecheckEpoch => phase.Loaded?
    case RecheckSlot => phase.EpochChecked?
    case WriteBack => phase.Confirmed?
    case Exit => phase.Exiting?
  }

  predicate Enabled<K, V>(s: State<K, V>, ev: Event<K, V>) {
    match ev
    case Advance(g, step) => CallCan(s, g, step)
    case Refreshing(r, step) => RefreshCan(s, r, step)
    case InvalidateApply(i) => i in s.pending
    case InvalidateFail(i) => i in s.pending && s.pending[i].ByPredicate()
    case _ => true
  }

  /** Call `g` moves on or answers; an answer is recorded. */
  function Take<K, V>(s: State<K, V>, g: nat, move: Move): State<K, V>
    requires g in s.calls
  {
    s.(calls := match move
                case Goto(pc) => s.calls[g := s.calls[g].(pc := pc)]
                case Answer(_) => s.calls - {g},
       answers := match move
                  case Goto(_) => s.answers
                  case Answer(outcome) =>
                    s.answers + [Return(s.calls[g].key, g, s.calls[g].readClock, s.stamp, outcome)])
  }

  function SetPhase<K, V>(s: State<K, V>, r: nat, phase: RefreshPhase<V>): State<K, V>
    requires r in s.refreshes
  {
    s.(refreshes := s.refreshes[r := s.refreshes[r].(phase := phase)])
  }

  function DoBegin<K, V>(s: State<K, V>, k: K): State<K, V> {
    var floor := if k in s.latest then s.latest[k] else 0;
    s.(calls := s.calls[s.stamp := Call(k, s.clock, floor, Begun)],
       metrics := s.metrics.(calls := s.metrics.calls + 1))
  }

  function LookupMove<K, V>(w: World<K, V>, s: State<K, V>, g: nat): Move
    requires CallCan(s, g, Lookup)
  {
    var c := s.calls[g];
    if c.key !in s.slots then Goto(Missed)
    else
      var e := s.slots[c.key];
      match Judge(w.config, c.readClock, s.entries[e])
      case Stale => Goto(StaleHit(e))
      case Expired => Goto(Missed)
      case _ => Answer(Served(e))
  }

  /** Which counter the lookup of call `g` bumps. */
  function LookupMetrics<K, V>(w: World<K, V>, s: State<K, V>, g: nat): Metrics
    requires CallCan(s, g, Lookup)
  {
    var c, m := s.calls[g], s.metrics;
    if c.key !in s.slots then m.(misses := m.misses + 1)
    else
      match Judge(w.config, c.readClock, s.entries[s.slots[c.key]])
      case Fresh => m.(hits := m.hits + 1)
      case Negative => m.(negativeHits := m.negativeHits + 1)
      case Stale => m.(staleHits := m.staleHits + 1)
      case Expired => m.(misses := m.misses + 1)
  }

  function DoLookup<K, V>(w: World<K, V>, s: State<K, V>, g: nat): State<K, V>
    requires CallCan(s, g, Lookup)
  {
    Take(s, g, LookupMove(w, s, g)).(metrics := LookupMetrics(w, s, g))
  }

  /** The compare-exchange on the entry's `refresh_in_flight` flag. */
  function DoCas<K, V>(s: State<K, V>, g: nat): State<K, V>
    requires g in s.calls && s.calls[g].pc.StaleHit?
  {
    var e := s.calls[g].pc.entry;
    var lost := e in s.flags;
    Take(s, g, if lost then Answer(Served(e)) else Goto(WonCas(e))).(
      flags := s.flags + {e},
      metrics := if lost then s.metrics.(skippedInflight := s.metrics.skippedInflight + 1) else s.metrics)
  }

  function DoSpawn<K, V>(s: State<K, V>, g: nat): State<K, V>
    requires g in s.calls && s.calls[g].pc.WonCas?
  {
    var e := s.calls[g].pc.entry;
    Take(s, g, Answer(Served(e))).(
      refreshes := s.refreshes[s.stamp := Refresh(s.calls[g].key, e, s.epoch, Spawned)])
  }

  function DoDropCurrent<K, V>(s: State<K, V>, g: nat): State<K, V>
    requires g in s.calls
  {
    Take(s, g, Goto(Dropped)).(slots := s.slots - {s.calls[g].key})
  }

  /** `try_get_with`: take the value there, join the load in flight, or lead a new one. */
  function TryGetWithMove<K, V>(s: State<K, V>, g: nat): Move
    requires g in s.calls && s.calls[g].pc.Ready?
  {
    var c := s.calls[g];
    if c.key in s.slots then Goto(Holding(c.pc.epochBefore, s.slots[c.key], false))
    else if c.key in s.active then Goto(Waiting(c.pc.epochBefore, s.active[c.key]))
    else Goto(Leading(c.pc.epochBefore))
  }

  function DoTryGetWith<K, V>(s: State<K, V>, g: nat): State<K, V>
    requires g in s.calls && s.calls[g].pc.Ready?
  {
    var k, move := s.calls[g].key, TryGetWithMove(s, g);
    Take(s, g, move).(
      flights := if move.pc.Leading? then s.flights[g := Flight(k, s.stamp, Loading)] else s.flights,
      active := if move.pc.Leading? then s.active[k := g] else s.active)
  }

  function DoLoadOk<K, V>(w: World<K, V>, s: State<K, V>, g: nat, readAt: nat): State<K, V>
    requires g in s.flights
  {
    var f := s.flights[g];
    s.(entries := s.entries[s.stamp := Entry(f.key, w.source(readAt, f.key), s.clock, f.started, readAt)],
       flights := s.flights[g := f.(phase := Made(s.stamp))])
  }

  /** The load behind flight `g` ends without an entry; its leader's call ends with it. */
  function DoLoadGone<K, V>(s: State<K, V>, g: nat, phase: FlightPhase, outcome: Outcome): State<K, V>
    requires g in s.flights && g in s.calls
  {
    Take(s, g, Answer(outcome)).(
      flights := s.flights[g := s.flights[g].(phase := phase)],
      active := s.active - {s.flights[g].key})
  }

  function DoInsert<K, V>(s: State<K, V>, g: nat): State<K, V>
    requires g in s.calls && s.calls[g].pc.Leading?
    requires g in s.flights && s.flights[g].phase.Made? && s.flights[g].phase.entry in s.entries
  {
    var f := s.flights[g];
    var e := f.phase.entry;
    Take(s, g, Goto(Holding(s.calls[g].pc.epochBefore, e, true))).(
      slots := s.slots[f.key := e],
      latest := s.latest[f.key := s.entries[e].started],
      flights := s.flights[g := f.(phase := Inserted(e))],
      active := s.active - {f.key})
  }

  function WakeMove<K, V>(s: State<K, V>, g: nat): Move
    requires g in s.calls && s.calls[g].pc.Waiting? && s.calls[g].pc.flight in s.flights
  {
    var pc := s.calls[g].pc;
    match s.flights[pc.flight].phase
    case Inserted(e) => Goto(Holding(pc.epochBefore, e, false))
    case FlightFailed => Answer(Failed)
    case _ => Goto(Ready(pc.epochBefore))
  }

  function CheckEpochMove<K, V>(s: State<K, V>, g: nat): Move
    requires g in s.calls && s.calls[g].pc.Holding?
  {
    var pc := s.calls[g].pc;
    if pc.epochBefore == s.epoch then Answer(Fetched(pc.entry)) else Goto(Condemned(pc.entry, pc.led))
  }

  function DoEvacuate<K, V>(s: State<K, V>, g: nat): State<K, V>
    requires g in s.calls && s.calls[g].pc.Condemned?
  {
    Take(s, g, Answer(Fetched(s.calls[g].pc.entry))).(
      slots := s.slots - {s.calls[g].key},
      metrics := s.metrics.(droppedEpoch := s.metrics.droppedEpoch + 1,
                            hardDrops := s.metrics.hardDrops + 1))
  }

  /** What `step` does to the call that takes it. */
  function StepMove<K, V>(w: World<K, V>, s: State<K, V>, g: nat, step: CallStep): Move
    requires CallCan(s, g, step)
  {
    var pc := s.calls[g].pc;
    match step
    case Lookup => LookupMove(w, s, g)
    case Cas => if pc.entry in s.flags then Answer(Served(pc.entry)) else Goto(WonCas(pc.entry))
    case Spawn => Answer(Served(pc.entry))
    case DropCurrent => Goto(Dropped)
    case Capture => Goto(Ready(s.epoch))
    case TryGetWith => TryGetWithMove(s, g)
    case LoadOk(_) => Goto(pc)
    case LoadErr => Answer(Failed)
    case LoadPanic => Answer(Panicked)
    case Insert => Goto(Holding(pc.epochBefore, s.flights[g].phase.entry, true))
    case Wake => WakeMove(s, g)
    case CheckEpoch => CheckEpochMove(s, g)
    case Evacuate => Answer(Fetched(pc.entry))
  }

  function CallDo<K, V>(w: World<K, V>, s: State<K, V>, g: nat, step: CallStep): State<K, V>
    requires CallCan(s, g, step)
  {
    match step
    case Lookup => DoLookup(w, s, g)
    case Cas => DoCas(s, g)
    case Spawn => DoSpawn(s, g)
    case DropCurrent => DoDropCurrent(s, g)
    case Capture => Take(s, g, Goto(Ready(s.epoch)))
    case TryGetWith => DoTryGetWith(s, g)
    case LoadOk(readAt) => DoLoadOk(w, s, g, readAt)
    case LoadErr => DoLoadGone(s, g, FlightFailed, Failed)
    case LoadPanic => DoLoadGone(s, g, FlightPanicked, Panicked)
    case Insert => DoInsert(s, g)
    case Wake => Take(s, g, WakeMove(s, g))
    case CheckEpoch => Take(s, g, CheckEpochMove(s, g))
    case Evacuate => DoEvacuate(s, g)
  }

  function DoReceive<K, V>(w: World<K, V>, s: State<K, V>, r: nat, readAt: nat): State<K, V>
    requires r in s.refreshes && s.refreshes[r].phase.Running?
  {
    var rf := s.refreshes[r];
    SetPhase(s, r, Loaded(Load(rf.phase.started, readAt, w.source(readAt, rf.key))))
  }

  /** Refresh `r` goes on to `phase` if `go`; otherwise its result is dropped. */
  function GoOrDrop<K, V>(s: State<K, V>, r: nat, go: bool, phase: RefreshPhase<V>): State<K, V>
    requires r in s.refreshes
  {
    SetPhase(s, r, if go then phase else Exiting).(
      metrics := if go then s.metrics else s.metrics.(droppedEpoch := s.metrics.droppedEpoch + 1))
  }

  function DoRecheckEpoch<K, V>(s: State<K, V>, r: nat): State<K, V>
    requires r in s.refreshes && s.refreshes[r].phase.Loaded?
  {
    var rf := s.refreshes[r];
    GoOrDrop(s, r, rf.epochBefore == s.epoch, EpochChecked(rf.phase.load))
  }

  function DoRecheckSlot<K, V>(s: State<K, V>, r: nat): State<K, V>
    requires r in s.refreshes && s.refreshes[r].phase.EpochChecked?
  {
    var rf := s.refreshes[r];
    GoOrDrop(s, r, rf.key in s.slots && s.slots[rf.key] == rf.from, Confirmed(rf.phase.load))
  }

  function DoWriteBack<K, V>(s: State<K, V>, r: nat): State<K, V>
    requires r in s.refreshes && s.refreshes[r].phase.Confirmed?
  {
    var k := s.refreshes[r].key;
    var load := s.refreshes[r].phase.load;
    SetPhase(s, r, Exiting).(
      entries := s.entries[s.stamp := Entry(k, load.value, s.clock, load.started, load.readAt)],
      slots := s.slots[k := s.stamp],
      latest := s.latest[k := load.started],
      metrics := s.metrics.(refreshSuccess := s.metrics.refreshSuccess + 1))
  }

  /** The drop guard clears the flag however the refresh ended. */
  function DoExit<K, V>(s: State<K, V>, r: nat): State<K, V>
    requires r in s.refreshes
  {
    s.(refreshes := s.refreshes - {r}, flags := s.flags - {s.refreshes[r].from})
  }

  function RefreshDo<K, V>(w: World<K, V>, s: State<K, V>, r: nat, step: RefreshStep): State<K, V>
    requires RefreshCan(s, r, step)
  {
    match step
    case Start => SetPhase(s, r, Running(s.stamp))
    case Receive(readAt) => DoReceive(w, s, r, readAt)
    case ReceiveErr =>
      SetPhase(s, r, Exiting).(metrics := s.metrics.(refreshFailure := s.metrics.refreshFailure + 1))
    case Panic =>
      SetPhase(s, r, Exiting).(metrics := s.metrics.(panics := s.metrics.panics + 1))
    case RecheckEpoch => DoRecheckEpoch(s, r)
    case RecheckSlot => DoRecheckSlot(s, r)
    case WriteBack => DoWriteBack(s, r)
    case Exit => DoExit(s, r)
  }

  function CountInvalidation(m: Metrics): Metrics {
    m.(invalidations := m.invalidations + 1)
  }

  /**
  The epoch moves first; the map is told next. A predicate invalidation is counted before it is
  registered, the others after they took effect.
  */
  function DoInvalidateBegin<K, V>(s: State<K, V>, scope: Scope<K, V>): State<K, V> {
    s.(epoch := s.epoch + 1,
       lastBump := s.stamp,
       pending := s.pending[s.stamp := scope],
       metrics := if scope.ByPredicate() then CountInvalidation(s.metrics) else s.metrics)
  }

  /** The keys `scope` removes from the map. */
  function Covered<K, V>(s: State<K, V>, scope: Scope<K, V>): set<K> {
    set k | k in s.slots && s.slots[k] in s.entries && scope.Covers(k, s.entries[s.slots[k]].value)
  }

  function DoInvalidateApply<K, V>(s: State<K, V>, i: nat): State<K, V>
    requires i in s.pending
  {
    s.(slots := s.slots - Covered(s, s.pending[i]),
       pending := s.pending - {i},
       done := s.done + [Invalidation(s.pending[i], i)],
       metrics := if s.pending[i].ByPredicate() then s.metrics else CountInvalidation(s.metrics))
  }

  /** The effect of an event before the stamp moves on. */
  function Effect<K, V>(w: World<K, V>, s: State<K, V>, ev: Event<K, V>): State<K, V>
    requires Enabled(s, ev)
  {
    match ev
    case Tick(amount) => s.(clock := s.clock + amount)
    case Begin(k) => DoBegin(s, k)
    case Advance(g, step) => CallDo(w, s, g, step)
    case Refreshing(r, step) => RefreshDo(w, s, r, step)
    case InvalidateBegin(scope) => DoInvalidateBegin(s, scope)
    case InvalidateApply(i) => DoInvalidateApply(s, i)
    case InvalidateFail(i) => s.(pending := s.pending - {i})
    case Evict(k) => s.(slots := s.slots - {k})
  }

  function Next<K, V>(t: State<K, V>): State<K, V> {
    t.(stamp := t.stamp + 1)
  }

  function Apply<K, V>(w: World<K, V>, s: State<K, V>, ev: Event<K, V>): State<K, V>
    requires Enabled(s, ev)
  {
    Next(Effect(w, s, ev))
  }

  /** A run: the states it passes through, the first one empty, and the event between each two. */
  ghost predicate IsRun<K, V>(w: World<K, V>, states: seq<State<K, V>>, events: seq<Event<K, V>>) {
    && |states| == |events| + 1
    && states[0] == Init()
    && forall i :: 0 <= i < |events| ==>
         Enabled(states[i], events[i]) && states[i + 1] == Apply(w, states[i], events[i])
  }
}
