/**
What holds of every run of the cache: the invariants carried from the empty cache through any
number of events, and what they mean for callers.
*/
module SwrRuns {
  import opened Wrappers
  import opened SwrModel
  import opened SwrInvariants
  import opened SwrFlags
  import opened SwrAccounting
  import opened SwrSafety
  import opened SwrMonotone
  import opened SwrFreshReads

  /** What holds in every state of every run. */
  lemma {:induction false} EveryState<K, V>(w: World<K, V>, states: seq<State<K, V>>, events: seq<Event<K, V>>, n: nat)
    requires IsRun(w, states, events) && n < |states|
    ensures Shape(w, states[n]) && Flags(states[n]) && Accounts(states[n]) && Current(states[n])
  {
    if n == 0 {
      InitHolds(w);
    } else {
      EveryState(w, states, events, n - 1);
      var s, ev := states[n - 1], events[n - 1];
      hide Shape, Flags, Accounts, Current, Apply, Enabled;
      ShapeKept(w, s, ev);
      FlagsKept(w, s, ev);
      AccountsKept(w, s, ev);
      CurrentKept(w, s, ev);
    }
  }

  /** The stamp counts the events. */
  lemma {:induction false} StampsCount<K, V>(
      w: World<K, V>, states: seq<State<K, V>>, events: seq<Event<K, V>>, n: nat)
    requires IsRun(w, states, events) && n < |states|
    ensures states[n].stamp == n + 1
  {
    if n == 0 {
    } else {
      StampsCount(w, states, events, n - 1);
      OneTick(w, states[n - 1], events[n - 1]);
    }
  }

  lemma OneTick<K, V>(w: World<K, V>, s: State<K, V>, ev: Event<K, V>)
    requires Enabled(s, ev)
    ensures Apply(w, s, ev).stamp == s.stamp + 1
  {
    match ev
    case Advance(g, step) => CallFrame(w, s, g, step);
    case Refreshing(r, step) => RefreshFrame(w, s, r, step);
    case _ =>
  }

  lemma InitHolds<K, V>(w: World<K, V>)
    ensures var s: State<K, V> := Init(); Shape(w, s) && Flags(s) && Accounts(s) && Current(s)
  {
    hide *;
    InitShape(w);
    InitFlags<K, V>();
    InitAccounts<K, V>();
    InitSafe<K, V>();
  }

  lemma InitShape<K, V>(w: World<K, V>)
    ensures var s: State<K, V> := Init(); Shape(w, s)
  {
  }

  lemma InitFlags<K, V>()
    ensures var s: State<K, V> := Init(); Flags(s)
  {
  }

  lemma InitSafe<K, V>()
    ensures var s: State<K, V> := Init(); Current(s) && Safe(s)
  {
  }

  lemma InitMonotone<K, V>()
    ensures var s: State<K, V> := Init(); Monotone(s)
  {
  }

  lemma InitAccounts<K, V>()
    ensures var s: State<K, V> := Init(); Accounts(s)
  {
    var s: State<K, V> := Init();
    assert s.calls == map[] && s.refreshes == map[] && s.pending == map[] && s.epoch == s.metrics.invalidations;
    assert s.metrics == Metrics(0, 0, 0, 0, 0, 0, 0, 0, 0, 0, 0, 0);
    hide *;
    NothingCounted(s.metrics);
    NothingUnderWay(s);
    NothingOwed(s);
  }

  lemma NothingCounted(m: Metrics)
    requires m.calls == 0 && m.hits == 0 && m.staleHits == 0 && m.misses == 0 && m.negativeHits == 0
    requires m.skippedInflight == 0 && m.refreshSuccess == 0 && m.refreshFailure == 0
    requires m.droppedEpoch == 0 && m.hardDrops == 0 && m.panics == 0
    ensures CallBalance(m) == 0 && RefreshBalance(m) == 0
  {
  }

  lemma NothingOwed<K, V>(s: State<K, V>)
    requires Uncounted(s) == {} && Underway(s) == {} && Deciding(s) == {} && Unannounced(s) == {}
    requires CallBalance(s.metrics) == 0 && RefreshBalance(s.metrics) == 0 && s.epoch == s.metrics.invalidations
    ensures Accounts(s)
  {
    hide Uncounted, Deciding, Underway, Unannounced, CallBalance, RefreshBalance;
  }

  lemma NothingUnderWay<K, V>(s: State<K, V>)
    requires s.calls == map[] && s.refreshes == map[] && s.pending == map[]
    ensures Uncounted(s) == {} && Underway(s) == {} && Deciding(s) == {} && Unannounced(s) == {}
  {
  }

  // ---- Invalidation. ----

  /** None of the first `n` events inserted a load that an invalidation had overtaken. */
  ghost predicate NothingUndone<K, V>(states: seq<State<K, V>>, events: seq<Event<K, V>>, n: nat)
    requires n <= |events| && n <= |states|
  {
    forall i :: 0 <= i < n ==> !Undoes(states[i], events[i])
  }

  lemma {:induction false} EverySafeState<K, V>(
      w: World<K, V>, states: seq<State<K, V>>, events: seq<Event<K, V>>, n: nat)
    requires IsRun(w, states, events) && n < |states| && NothingUndone(states, events, n)
    ensures Safe(states[n])
  {
    hide Shape, Flags, Accounts, Current, Safe, Undoes, Apply, Enabled;
    if n == 0 {
      InitSafe<K, V>();
    } else {
      EverySafeState(w, states, events, n - 1);
      EveryState(w, states, events, n - 1);
      assert !Undoes(states[n - 1], events[n - 1]);
      SafeExactlyWhen(w, states[n - 1], events[n - 1]);
    }
  }

  /**
  When a run is safe: all its states up to `n` are, if and only if none of its first `n` events is
  the insert of a refresh that an invalidation covering its value has overtaken.
  */
  lemma SafetyExactlyWhen<K, V>(w: World<K, V>, states: seq<State<K, V>>, events: seq<Event<K, V>>, n: nat)
    requires IsRun(w, states, events) && n < |states|
    ensures (forall i :: 0 <= i <= n ==> Safe(states[i])) <==> NothingUndone(states, events, n)
  {
    hide Shape, Flags, Accounts, Current, Safe, Undoes, Apply, Enabled;
    if NothingUndone(states, events, n) {
      forall i | 0 <= i <= n ensures Safe(states[i]) { EverySafeState(w, states, events, i); }
    }
    if forall i :: 0 <= i <= n ==> Safe(states[i]) {
      forall i | 0 <= i < n ensures !Undoes(states[i], events[i]) {
        EveryState(w, states, events, i);
        assert Safe(states[i]) && Safe(states[i + 1]);
        SafeExactlyWhen(w, states[i], events[i]);
      }
    }
  }

  /** Some call still has a load of `k` under way, or an inserted one it has not vouched for. */
  ghost predicate LoadPending<K, V>(s: State<K, V>, k: K) {
    exists g :: g in s.calls && s.calls[g].key == k &&
                (s.calls[g].pc.Leading? || s.calls[g].pc.Condemned? || (s.calls[g].pc.Holding? && s.calls[g].pc.led))
  }

  /**
  Invalidation safety: as long as no overtaken load was inserted, an entry loaded before an
  invalidation that covers it is in its slot only while the call that inserted it is bound to
  remove it; with no load of the key pending, the slot is empty or holds a load from after every
  such invalidation.
  */
  lemma SafeUnlessUndone<K, V>(
      w: World<K, V>, states: seq<State<K, V>>, events: seq<Event<K, V>>, n: nat, k: K, i: nat)
    requires IsRun(w, states, events) && n < |states| && NothingUndone(states, events, n)
    requires k in states[n].slots && i < |states[n].done|
    ensures var s := states[n];
            && s.slots[k] in s.entries
            && (Outdated(s, k, s.done[i]) ==> exists g :: Owes(s, g, k))
            && (!LoadPending(s, k) ==> !Outdated(s, k, s.done[i]))
  {
    EverySafeState(w, states, events, n);
    var s := states[n];
    hide IsRun;
    assert SafeSlot(s, k);
    if Outdated(s, k, s.done[i]) {
      var g :| Owes(s, g, k);
      assert LoadPending(s, k);
    }
  }

  /**
  Read your invalidation: if at state `m` the invalidation is done and no load of `k` is pending,
  and no overtaken load is inserted up to state `n`, every answer on `k` of a call begun in between
  is a load from after the invalidation or a value it does not cover.
  */
  lemma ReadsUnlessUndone<K, V>(
      w: World<K, V>, states: seq<State<K, V>>, events: seq<Event<K, V>>, m: nat, n: nat, k: K, i: nat, j: nat)
    requires IsRun(w, states, events) && m <= n < |states| && NothingUndone(states, events, n)
    requires i < |states[m].done| && !LoadPending(states[m], k)
    requires j < |states[n].answers|
    requires var a := states[n].answers[j]; a.key == k && states[m].stamp <= a.begun && Given(a.outcome).Some?
    ensures NewEnough(states[n], k, Given(states[n].answers[j].outcome).value, states[m].done[i])
  {
    EveryState(w, states, events, m);
    EverySafeState(w, states, events, m);
    NothingActive(w, states[m], k);
    SettledWhenIdle(w, states[m], k, i);
    FreshForever(w, states, events, m, n, k, states[m].done[i]);
    assert AnswerFresh(states[n], states[n].answers[j], k, states[m].done[i], states[m].stamp);
  }

  lemma NothingActive<K, V>(w: World<K, V>, s: State<K, V>, k: K)
    requires Shape(w, s) && !LoadPending(s, k)
    ensures k !in s.active
  {
    assert k in s.active ==> ActiveOk(s, k);
  }

  lemma {:induction false} FreshForever<K, V>(
      w: World<K, V>, states: seq<State<K, V>>, events: seq<Event<K, V>>, m: nat, n: nat, k: K, inv: Invalidation<K, V>)
    requires IsRun(w, states, events) && m <= n < |states| && NothingUndone(states, events, n)
    requires FreshSince(states[m], k, inv, states[m].stamp) && inv in states[m].done
    ensures FreshSince(states[n], k, inv, states[m].stamp) && inv in states[n].done
  {
    hide Apply, Enabled, Shape, Flags, Accounts, Current, FreshSince, Undoes;
    if m == n {
    } else {
      FreshForever(w, states, events, m, n - 1, k, inv);
      EveryState(w, states, events, n - 1);
      assert !Undoes(states[n - 1], events[n - 1]);
      FreshKept(w, states[n - 1], events[n - 1], k, inv, states[m].stamp);
      DoneGrows(w, states[n - 1], events[n - 1]);
    }
  }

  lemma DoneGrows<K, V>(w: World<K, V>, s: State<K, V>, ev: Event<K, V>)
    requires Enabled(s, ev)
    ensures s.done <= Apply(w, s, ev).done
    ensures ev.InvalidateApply? ==>
              ev.id in s.pending && Apply(w, s, ev).done == s.done + [Invalidation(s.pending[ev.id], ev.id)]
    ensures !ev.InvalidateApply? ==> Apply(w, s, ev).done == s.done
  {
    hide CallDo, RefreshDo, CallCan, RefreshCan;
    match ev
    case Advance(g, step) => CallFrame(w, s, g, step);
    case Refreshing(r, step) => RefreshFrame(w, s, r, step);
    case _ =>
  }

  // ---- Monotone reads. ----

  /** None of the first `n` events inserted the load of a refresh out of its turn. */
  ghost predicate AllInTurn<K, V>(states: seq<State<K, V>>, events: seq<Event<K, V>>, n: nat)
    requires n <= |events| && n <= |states|
  {
    forall i :: 0 <= i < n ==> !OutOfTurn(states[i], events[i])
  }

  lemma {:induction false} EveryMonotoneState<K, V>(
      w: World<K, V>, states: seq<State<K, V>>, events: seq<Event<K, V>>, n: nat)
    requires IsRun(w, states, events) && n < |states| && AllInTurn(states, events, n)
    ensures Monotone(states[n])
  {
    hide Shape, Flags, Accounts, Current, Monotone, OutOfTurn, Apply, Enabled;
    if n == 0 {
      InitMonotone<K, V>();
    } else {
      EveryMonotoneState(w, states, events, n - 1);
      EveryState(w, states, events, n - 1);
      assert !OutOfTurn(states[n - 1], events[n - 1]);
      MonotoneKept(w, states[n - 1], events[n - 1]);
    }
  }

  ghost predicate InSuccession<K, V>(s: State<K, V>, t: State<K, V>) {
    forall k :: k in t.slots ==> Succeeds(s, t, k)
  }

  /** Up to state `n`, what the slots received was from ever later loads. */
  ghost predicate OrderedUpTo<K, V>(states: seq<State<K, V>>, n: nat)
    requires n < |states|
  {
    && (forall i :: 0 <= i <= n ==> SlotsMono(states[i]))
    && (forall i :: 0 <= i < n ==> InSuccession(states[i], states[i + 1]))
  }

  /**
  When the loads of a run stay in order: if and only if every refresh that wrote back did so in its
  turn, later than the last load its key's slot had received and earlier than any load in flight.
  */
  lemma OrderExactlyWhen<K, V>(w: World<K, V>, states: seq<State<K, V>>, events: seq<Event<K, V>>, n: nat)
    requires IsRun(w, states, events) && n < |states|
    ensures OrderedUpTo(states, n) <==> AllInTurn(states, events, n)
  {
    hide Shape, Flags, Accounts, Current, SlotsMono, CallsMono, AnswersMono, OutOfTurn, Apply, Enabled, Succeeds;
    if AllInTurn(states, events, n) {
      forall i | 0 <= i <= n ensures SlotsMono(states[i]) { EveryMonotoneState(w, states, events, i); }
      forall i | 0 <= i < n ensures InSuccession(states[i], states[i + 1]) {
        var s, t := states[i], states[i + 1];
        forall k | k in t.slots ensures Succeeds(s, t, k) { SlotSucceeds(w, states, events, i, k); }
      }
    }
    if OrderedUpTo(states, n) {
      forall i | 0 <= i < n ensures !OutOfTurn(states[i], events[i]) {
        EveryState(w, states, events, i);
        assert SlotsMono(states[i]) && SlotsMono(states[i + 1]) && InSuccession(states[i], states[i + 1]);
        OrderedStep(w, states[i], events[i]);
      }
    }
  }

  lemma OrderedStep<K, V>(w: World<K, V>, s: State<K, V>, ev: Event<K, V>)
    requires Shape(w, s) && Enabled(s, ev) && SlotsMono(s) && SlotsMono(Apply(w, s, ev))
    requires InSuccession(s, Apply(w, s, ev))
    ensures !OutOfTurn(s, ev)
  {
    hide Shape, SlotsMono, Succeeds, Apply, Enabled;
    if WritesBack(s, ev) {
      IsWriteBack(w, s, ev);
      WriteBackKeepsOrderExactlyWhen(w, s, ev.task);
    }
  }

  lemma IsWriteBack<K, V>(w: World<K, V>, s: State<K, V>, ev: Event<K, V>)
    requires Enabled(s, ev) && WritesBack(s, ev)
    ensures Apply(w, s, ev) == Next(DoWriteBack(s, ev.task))
    ensures s.refreshes[ev.task].key in DoWriteBack(s, ev.task).slots
  {
    hide CallDo, CallCan;
  }

  lemma {:induction false} SlotsSucceed<K, V>(
      w: World<K, V>, states: seq<State<K, V>>, events: seq<Event<K, V>>, m: nat, n: nat, k: K)
    requires IsRun(w, states, events) && m <= n < |states| && AllInTurn(states, events, n)
    ensures k in states[m].latest ==> Succeeds(states[m], states[n], k)
  {
    hide Apply, Enabled, OutOfTurn;
    if m == n {
    } else {
      SlotsSucceed(w, states, events, m, n - 1, k);
      SlotSucceeds(w, states, events, n - 1, k);
    }
  }

  lemma SlotSucceeds<K, V>(w: World<K, V>, states: seq<State<K, V>>, events: seq<Event<K, V>>, n: nat, k: K)
    requires IsRun(w, states, events) && n + 1 < |states| && AllInTurn(states, events, n + 1)
    ensures Succeeds(states[n], states[n + 1], k)
  {
    hide Shape, Flags, Accounts, Current, Monotone, OutOfTurn, Apply, Enabled, Succeeds;
    EveryState(w, states, events, n);
    EveryMonotoneState(w, states, events, n);
    assert !OutOfTurn(states[n], events[n]);
    SlotSuccession(w, states[n], events[n], k);
  }

  /** Of two entries a slot holds, one after the other, the later one is from the later load. */
  lemma SlotsForwardInTurn<K, V>(
      w: World<K, V>, states: seq<State<K, V>>, events: seq<Event<K, V>>, m: nat, n: nat, k: K)
    requires IsRun(w, states, events) && m <= n < |states| && AllInTurn(states, events, n)
    requires k in states[m].slots && k in states[n].slots
    ensures states[m].slots[k] in states[m].entries && states[n].slots[k] in states[n].entries
    ensures states[m].slots[k] != states[n].slots[k] ==>
              states[m].entries[states[m].slots[k]].started < states[n].entries[states[n].slots[k]].started
  {
    EveryMonotoneState(w, states, events, m);
    EveryMonotoneState(w, states, events, n);
    assert SlotMono(states[m], k) && SlotMono(states[n], k);
    hide Monotone, OutOfTurn;
    SlotsSucceed(w, states, events, m, n, k);
  }

  /** A call that begins after another answered never answers with an older load. */
  lemma ReadsForwardInTurn<K, V>(
      w: World<K, V>, states: seq<State<K, V>>, events: seq<Event<K, V>>, n: nat, i: nat, j: nat)
    requires IsRun(w, states, events) && n < |states| && AllInTurn(states, events, n)
    requires i < |states[n].answers| && j < |states[n].answers|
    ensures InOrder(states[n], states[n].answers[i], states[n].answers[j])
  {
    EveryMonotoneState(w, states, events, n);
  }

  // ---- What an answer is worth. ----

  /**
  Bounded staleness: every value answered is what the source held at some moment during the load
  behind it, a load begun and finished before the answer; and a value answered without loading was
  fetched less than its time to live before the call read its clock.
  */
  lemma AnswersAreTruthful<K, V>(
      w: World<K, V>, states: seq<State<K, V>>, events: seq<Event<K, V>>, n: nat, j: nat)
    requires IsRun(w, states, events) && n < |states| && j < |states[n].answers|
    requires Given(states[n].answers[j].outcome).Some?
    ensures var s, a := states[n], states[n].answers[j];
            var e := Given(a.outcome).value;
            && e in s.entries
            && var en := s.entries[e];
            && en.key == a.key
            && en.value == w.source(en.readAt, a.key)
            && en.started <= en.readAt <= e < a.at < s.stamp
            && (a.outcome.Served? && en.value.Some? ==> a.readClock < en.fetchedAt + w.config.ttl)
            && (a.outcome.Served? && en.value.None? ==> a.readClock < en.fetchedAt + w.config.negativeTtl)
  {
    EveryState(w, states, events, n);
    var s, a := states[n], states[n].answers[j];
    assert AnswerOk(w, s, a);
    EntryKnown(w, s, Given(a.outcome).value);
  }

  /**
  Under a validated configuration the verdicts are intervals of the clock reading: fresh before the
  soft lifetime is over, stale from then on before the hard one is, and expired after that. An entry
  fetched after the clock was read counts as just fetched.
  */
  lemma JudgeRule<K, V>(c: Config, readClock: nat, e: Entry<K, V>)
    requires Validate(c).Ok?
    ensures Judge(c, readClock, e) == Fresh <==> e.value.Some? && 0 < c.softTtl && readClock < e.fetchedAt + c.softTtl
    ensures Judge(c, readClock, e) == Stale <==>
              && e.value.Some? && readClock < e.fetchedAt + c.ttl
              && (c.softTtl == 0 || e.fetchedAt + c.softTtl <= readClock)
    ensures Judge(c, readClock, e) == Negative <==>
              e.value.None? && 0 < c.negativeTtl && readClock < e.fetchedAt + c.negativeTtl
    ensures Judge(c, readClock, e) == Expired <==>
              && (e.value.Some? ==> e.fetchedAt + c.ttl <= readClock)
              && (e.value.None? ==> c.negativeTtl == 0 || e.fetchedAt + c.negativeTtl <= readClock)
  {
  }

  /** Only an entry with a value, at least `softTtl` old, is ever refreshed in the background. */
  lemma OnlyStaleEntriesAreRefreshed<K, V>(
      w: World<K, V>, states: seq<State<K, V>>, events: seq<Event<K, V>>, n: nat, r: nat)
    requires IsRun(w, states, events) && n < |states| && r in states[n].refreshes
    ensures var s := states[n];
            && s.refreshes[r].from in s.entries
            && var en := s.entries[s.refreshes[r].from];
            && en.key == s.refreshes[r].key && en.value.Some?
            && (w.config.softTtl == 0 || en.fetchedAt + w.config.softTtl <= s.clock)
  {
    EveryState(w, states, events, n);
    assert RefreshOk(w, states[n], r);
  }

  /** What the pass-through cache answers to a `get` of `k` made at stamp `t`. */
  function PassThrough<K, V>(w: World<K, V>, t: nat, k: K): Option<V> {
    w.source(t, k)
  }

  /**
  With a source that does not change, every answer of every run of gets, refreshes, evictions and
  invalidations is the pass-through cache's.
  */
  lemma SteadySourceAnswersLikePassThrough<K, V>(
      w: World<K, V>, states: seq<State<K, V>>, events: seq<Event<K, V>>, n: nat, j: nat, t: nat)
    requires IsRun(w, states, events) && n < |states| && j < |states[n].answers|
    requires forall u, v, k :: w.source(u, k) == w.source(v, k)
    requires Given(states[n].answers[j].outcome).Some?
    ensures var e := Given(states[n].answers[j].outcome).value;
            e in states[n].entries && states[n].entries[e].value == PassThrough(w, t, states[n].answers[j].key)
  {
    AnswersAreTruthful(w, states, events, n, j);
  }

  // ---- Counting. ----

  /** With no call in progress, every call is counted once; with no refresh either, so is every stale hit. */
  lemma CountersBalance<K, V>(w: World<K, V>, states: seq<State<K, V>>, events: seq<Event<K, V>>, n: nat)
    requires IsRun(w, states, events) && n < |states|
    ensures var s, m := states[n], states[n].metrics;
            && m.calls == m.hits + m.staleHits + m.misses + m.negativeHits + |Uncounted(s)|
            && m.staleHits == m.skippedInflight + m.refreshSuccess + m.refreshFailure + (m.droppedEpoch - m.hardDrops)
                              + m.panics + |Underway(s)| + |Deciding(s)|
            && (s.calls == map[] ==> m.calls == m.hits + m.staleHits + m.misses + m.negativeHits)
            && (s.calls == map[] && s.refreshes == map[] ==>
                  m.staleHits == m.skippedInflight + m.refreshSuccess + m.refreshFailure
                                 + (m.droppedEpoch - m.hardDrops) + m.panics)
            && (s.pending == map[] ==> s.epoch == m.invalidations)
  {
    EveryState(w, states, events, n);
    var s := states[n];
    hide IsRun, Shape, Flags, Current;
    if s.calls == map[] { assert Uncounted(s) == {} && Deciding(s) == {}; }
    if s.refreshes == map[] { assert Underway(s) == {}; }
    if s.pending == map[] { assert Unannounced(s) == {}; }
  }

  function Count<K, V>(events: seq<Event<K, V>>, kind: Event<K, V> -> bool): nat {
    if events == [] then 0
    else Count(events[..|events| - 1], kind) + (if kind(events[|events| - 1]) then 1 else 0)
  }

  /**
  Over every run: as many refreshes succeeded as wrote back, as many failed as had an error from
  their loader, and as many calls were counted as began.
  */
  lemma {:induction false} OutcomesAreCounted<K, V>(
      w: World<K, V>, states: seq<State<K, V>>, events: seq<Event<K, V>>, n: nat)
    requires IsRun(w, states, events) && n < |states|
    ensures var m, past := states[n].metrics, events[..n];
            && m.refreshSuccess == Count(past, (ev: Event<K, V>) => ev.Refreshing? && ev.refreshStep.WriteBack?)
            && m.refreshFailure == Count(past, (ev: Event<K, V>) => ev.Refreshing? && ev.refreshStep.ReceiveErr?)
            && m.panics == Count(past, (ev: Event<K, V>) => ev.Refreshing? && ev.refreshStep.Panic?)
            && m.calls == Count(past, (ev: Event<K, V>) => ev.Begin?)
  {
    if n == 0 {
    } else {
      OutcomesAreCounted(w, states, events, n - 1);
      hide Apply, Enabled;
      OneOutcome(w, states[n - 1], events[n - 1]);
      assert events[..n][..n - 1] == events[..n - 1];
    }
  }

  /** The counters that end a refresh or begin a call, after one more event. */
  ghost predicate Counted(m: Metrics, t: Metrics, success: bool, failure: bool, panic: bool, begun: bool) {
    && t.refreshSuccess == m.refreshSuccess + (if success then 1 else 0)
    && t.refreshFailure == m.refreshFailure + (if failure then 1 else 0)
    && t.panics == m.panics + (if panic then 1 else 0)
    && t.calls == m.calls + (if begun then 1 else 0)
  }

  lemma OneOutcome<K, V>(w: World<K, V>, s: State<K, V>, ev: Event<K, V>)
    requires Enabled(s, ev)
    ensures Counted(s.metrics, Apply(w, s, ev).metrics,
                    ev.Refreshing? && ev.refreshStep.WriteBack?, ev.Refreshing? && ev.refreshStep.ReceiveErr?,
                    ev.Refreshing? && ev.refreshStep.Panic?, ev.Begin?)
  {
    hide CallDo, CallCan, RefreshDo, RefreshCan;
    match ev
    case Advance(g, step) => OutcomeOfCall(w, s, g, step);
    case Refreshing(r, step) => OutcomeOfRefresh(w, s, r, step);
    case _ =>
  }

  lemma OutcomeOfCall<K, V>(w: World<K, V>, s: State<K, V>, g: nat, step: CallStep)
    requires CallCan(s, g, step)
    ensures Counted(s.metrics, CallDo(w, s, g, step).metrics, false, false, false, false)
  {
    CallFrame(w, s, g, step);
    match step
    case Lookup =>
    case Cas =>
    case Evacuate =>
    case _ => hide CallDo, CallCan, StepMove;
  }

  lemma OutcomeOfRefresh<K, V>(w: World<K, V>, s: State<K, V>, r: nat, step: RefreshStep)
    requires RefreshCan(s, r, step)
    ensures Counted(s.metrics, RefreshDo(w, s, r, step).metrics, step.WriteBack?, step.ReceiveErr?, step.Panic?, false)
  {
  }

  /** In every run an entry's flag is set exactly while it has a refresh, and it never has two. */
  lemma RefreshesAreSingleFlight<K, V>(
      w: World<K, V>, states: seq<State<K, V>>, events: seq<Event<K, V>>, n: nat, e: nat)
    requires IsRun(w, states, events) && n < |states|
    ensures e in states[n].flags <==> Refreshed(states[n], e)
    ensures forall r, q :: TaskFor(states[n], r, e) && TaskFor(states[n], q, e) ==> r == q
    ensures forall g, r :: WonFor(states[n], g, e) ==> !TaskFor(states[n], r, e)
  {
    EveryState(w, states, events, n);
  }
}
