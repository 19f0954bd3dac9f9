/**
Reads after an invalidation. Once an invalidation has taken effect and no load older than it is
still in flight for a key, every call on that key that begins from then on answers with a load
that began after the invalidation, or with a value the invalidation does not cover; as long as no
refresh inserts a load that an invalidation has overtaken.
*/
module SwrFreshReads {
  import opened Wrappers
  import opened SwrModel
  import opened SwrInvariants
  import opened SwrSafety
  import opened SwrMonotone

  /** `e` is not covered by `inv`, or was loaded after it. */
  ghost predicate NewEnough<K, V>(s: State<K, V>, k: K, e: nat, inv: Invalidation<K, V>) {
    e in s.entries && !(inv.scope.Covers(k, s.entries[e].value) && s.entries[e].started <= inv.at)
  }

  /** Nothing older than `inv` is in `k`'s slot or on its way there. */
  ghost predicate Settled<K, V>(s: State<K, V>, k: K, inv: Invalidation<K, V>) {
    && inv.at <= s.lastBump
    && (k in s.slots ==> NewEnough(s, k, s.slots[k], inv))
    && (k in s.active ==> s.active[k] in s.flights && inv.at < s.flights[s.active[k]].started)
  }

  ghost predicate CallFresh<K, V>(s: State<K, V>, g: nat, inv: Invalidation<K, V>)
    requires g in s.calls
  {
    var c := s.calls[g];
    && (Held(c.pc).Some? ==> NewEnough(s, c.key, Held(c.pc).value, inv))
    && (Boarded(g, c.pc).Some? ==>
          Boarded(g, c.pc).value in s.flights && inv.at < s.flights[Boarded(g, c.pc).value].started)
  }

  ghost predicate CallsFresh<K, V>(s: State<K, V>, k: K, inv: Invalidation<K, V>, since: nat) {
    forall g :: g in s.calls && since <= g && s.calls[g].key == k ==> CallFresh(s, g, inv)
  }

  ghost predicate AnswerFresh<K, V>(s: State<K, V>, a: Return<K>, k: K, inv: Invalidation<K, V>, since: nat) {
    since <= a.begun && a.key == k && Given(a.outcome).Some? ==> NewEnough(s, k, Given(a.outcome).value, inv)
  }

  ghost predicate AnswersFresh<K, V>(s: State<K, V>, k: K, inv: Invalidation<K, V>, since: nat) {
    forall i :: 0 <= i < |s.answers| ==> AnswerFresh(s, s.answers[i], k, inv, since)
  }

  /** `k` is settled with respect to `inv`, and every call on it begun since `since` is fresh. */
  ghost predicate FreshSince<K, V>(s: State<K, V>, k: K, inv: Invalidation<K, V>, since: nat) {
    Settled(s, k, inv) && CallsFresh(s, k, inv, since) && AnswersFresh(s, k, inv, since)
  }

  /** With the invalidation done and no load of `k` pending or owing its check, `k` is settled. */
  lemma SettledWhenIdle<K, V>(w: World<K, V>, s: State<K, V>, k: K, i: nat)
    requires Shape(w, s) && Safe(s) && i < |s.done| && k !in s.active
    requires forall g :: g in s.calls && s.calls[g].key == k ==>
               !s.calls[g].pc.Condemned? && !(s.calls[g].pc.Holding? && s.calls[g].pc.led)
    ensures FreshSince(s, k, s.done[i], s.stamp)
  {
    hide Shape;
    BumpKnown(w, s);
    StampsKnown(w, s);
    if k in s.slots {
      assert SafeSlot(s, k);
      assert forall g :: !Owes(s, g, k);
    }
  }

  // ---- Every event keeps it. ----

  lemma FreshStays<K, V>(s: State<K, V>, t: State<K, V>, k: K, inv: Invalidation<K, V>, since: nat)
    requires FreshSince(s, k, inv, since) && s.lastBump <= t.lastBump && t.answers == s.answers
    requires forall e :: e in s.entries ==> e in t.entries && t.entries[e] == s.entries[e]
    requires k in t.slots ==> (k in s.slots && t.slots[k] == s.slots[k]) || NewEnough(t, k, t.slots[k], inv)
    requires t.active == s.active && t.flights == s.flights
    requires forall g :: g in t.calls ==> (g in s.calls && t.calls[g] == s.calls[g]) || CallFresh(t, g, inv)
    ensures FreshSince(t, k, inv, since)
  {
    forall i | 0 <= i < |t.answers| ensures AnswerFresh(t, t.answers[i], k, inv, since) {
      assert AnswerFresh(s, s.answers[i], k, inv, since);
    }
    forall g | g in t.calls && since <= g && t.calls[g].key == k ensures CallFresh(t, g, inv) {
      if g in s.calls { assert CallFresh(s, g, inv) || t.calls[g] != s.calls[g]; }
    }
  }

  lemma FreshRefreshStep<K, V>(
      w: World<K, V>, s: State<K, V>, r: nat, step: RefreshStep, k: K, inv: Invalidation<K, V>, since: nat)
    requires Shape(w, s) && FreshSince(s, k, inv, since) && inv in s.done && RefreshCan(s, r, step)
    requires !Undoes(s, Refreshing(r, step))
    ensures FreshSince(Next(RefreshDo(w, s, r, step)), k, inv, since)
  {
    hide Shape, CallsFresh, AnswersFresh, Undoes;
    if step.WriteBack? {
      FreshWriteBack(w, s, r, k, inv, since);
    } else {
      hide RefreshDo, RefreshCan;
      RefreshFrame(w, s, r, step);
      FreshStays(s, Next(RefreshDo(w, s, r, step)), k, inv, since);
    }
  }

  lemma FreshWriteBack<K, V>(w: World<K, V>, s: State<K, V>, r: nat, k: K, inv: Invalidation<K, V>, since: nat)
    requires Shape(w, s) && FreshSince(s, k, inv, since) && inv in s.done && RefreshCan(s, r, WriteBack)
    requires !Undoes(s, Refreshing(r, WriteBack))
    ensures FreshSince(Next(DoWriteBack(s, r)), k, inv, since)
  {
    hide Shape, CallsFresh, AnswersFresh, Undoes;
    NotOvertakenBy(s, r, inv);
    Unused(w, s);
    FreshStays(s, Next(DoWriteBack(s, r)), k, inv, since);
  }

  lemma NotOvertakenBy<K, V>(s: State<K, V>, r: nat, inv: Invalidation<K, V>)
    requires inv in s.done && RefreshCan(s, r, WriteBack) && !Undoes(s, Refreshing(r, WriteBack))
    ensures var load := s.refreshes[r].phase.load;
            !(inv.scope.Covers(s.refreshes[r].key, load.value) && load.started <= inv.at)
  {
    var i :| 0 <= i < |s.done| && s.done[i] == inv;
  }

  lemma FreshElsewhere<K, V>(w: World<K, V>, s: State<K, V>, ev: Event<K, V>, k: K, inv: Invalidation<K, V>, since: nat)
    requires Shape(w, s) && FreshSince(s, k, inv, since) && Enabled(s, ev) && !ev.Advance? && !ev.Refreshing?
    ensures FreshSince(Apply(w, s, ev), k, inv, since)
  {
    BumpKnown(w, s);
    hide Shape, CallsFresh, AnswersFresh, CallDo, RefreshDo, CallCan, RefreshCan;
    FreshStays(s, Apply(w, s, ev), k, inv, since);
  }

  /** What a call may take from a settled key. */
  lemma TakesFresh<K, V>(w: World<K, V>, s: State<K, V>, g: nat, step: CallStep, inv: Invalidation<K, V>, since: nat)
    requires Shape(w, s) && CallCan(s, g, step) && !step.Insert?
    requires FreshSince(s, s.calls[g].key, inv, since) && since <= g
    ensures var move := StepMove(w, s, g, step);
            Taken(move).Some? ==> NewEnough(s, s.calls[g].key, Taken(move).value, inv)
  {
    hide Shape, AnswersFresh;
    assert CallFresh(s, g, inv);
    if s.calls[g].pc.Waiting? {
      hide Settled;
      Standing(w, s, g);
      FlightKnown(w, s, s.calls[g].pc.flight);
    }
    hide FreshSince, CallsFresh;
  }

  /** A step that inserts or starts a load keeps `k` settled: the load began after the invalidation. */
  lemma SettledCall<K, V>(w: World<K, V>, s: State<K, V>, g: nat, step: CallStep, k: K, inv: Invalidation<K, V>)
    requires Shape(w, s) && Settled(s, k, inv) && CallCan(s, g, step)
    ensures Settled(Next(CallDo(w, s, g, step)), k, inv)
  {
    match step
    case TryGetWith => SettledTry(w, s, g, k, inv);
    case LoadOk(readAt) => SettledLoad(w, s, g, readAt, k, inv);
    case LoadErr => SettledGone(w, s, g, FlightFailed, Failed, k, inv);
    case LoadPanic => SettledGone(w, s, g, FlightPanicked, Panicked, k, inv);
    case Insert => SettledInsert(w, s, g, k, inv);
    case _ =>
      hide CallDo, StepMove, CallCan, Shape;
      LoadFrame(w, s, g, step);
      CallFrame(w, s, g, step);
  }

  lemma SettledTry<K, V>(w: World<K, V>, s: State<K, V>, g: nat, k: K, inv: Invalidation<K, V>)
    requires Shape(w, s) && Settled(s, k, inv) && CallCan(s, g, TryGetWith)
    ensures Settled(Next(DoTryGetWith(s, g)), k, inv)
  {
    hide Shape;
    BumpKnown(w, s);
  }

  lemma SettledLoad<K, V>(w: World<K, V>, s: State<K, V>, g: nat, readAt: nat, k: K, inv: Invalidation<K, V>)
    requires Shape(w, s) && Settled(s, k, inv) && CallCan(s, g, LoadOk(readAt))
    ensures Settled(Next(DoLoadOk(w, s, g, readAt)), k, inv)
  {
    hide Shape;
    Unused(w, s);
  }

  lemma SettledGone<K, V>(
      w: World<K, V>, s: State<K, V>, g: nat, phase: FlightPhase, outcome: Outcome, k: K, inv: Invalidation<K, V>)
    requires Shape(w, s) && Settled(s, k, inv) && LoaderRuns(s, g)
    ensures Settled(Next(DoLoadGone(s, g, phase, outcome)), k, inv)
  {
    hide Shape;
    Standing(w, s, g);
  }

  lemma SettledInsert<K, V>(w: World<K, V>, s: State<K, V>, g: nat, k: K, inv: Invalidation<K, V>)
    requires Shape(w, s) && Settled(s, k, inv) && CallCan(s, g, Insert)
    ensures Settled(Next(DoInsert(s, g)), k, inv)
  {
    hide Shape;
    Standing(w, s, g);
  }

  lemma CallFreshTry<K, V>(w: World<K, V>, s: State<K, V>, g: nat, inv: Invalidation<K, V>)
    requires Shape(w, s) && g in s.calls && s.calls[g].pc.Ready? && Settled(s, s.calls[g].key, inv)
    ensures CallFresh(Next(DoTryGetWith(s, g)), g, inv)
  {
    hide Shape;
    BumpKnown(w, s);
    var t := Next(DoTryGetWith(s, g));
    if s.calls[g].key in s.slots {
      assert t.calls[g].pc == Holding(s.calls[g].pc.epochBefore, s.slots[s.calls[g].key], false);
    } else if s.calls[g].key in s.active {
      assert t.calls[g].pc == Waiting(s.calls[g].pc.epochBefore, s.active[s.calls[g].key]);
    } else {
      assert t.calls[g].pc == Leading(s.calls[g].pc.epochBefore) && t.flights[g].started == s.stamp;
    }
  }

  lemma CallFreshInsert<K, V>(w: World<K, V>, s: State<K, V>, g: nat, inv: Invalidation<K, V>)
    requires Shape(w, s) && CallCan(s, g, Insert) && Settled(s, s.calls[g].key, inv)
    ensures CallFresh(Next(DoInsert(s, g)), g, inv)
  {
    hide Shape;
    Standing(w, s, g);
  }

  /** A call that keeps its flight and takes what is new enough stays fresh. */
  lemma CallFreshMove<K, V>(s: State<K, V>, t: State<K, V>, g: nat, pc: Pc, inv: Invalidation<K, V>)
    requires g in s.calls && CallFresh(s, g, inv)
    requires g in t.calls && t.calls[g] == s.calls[g].(pc := pc)
    requires forall e :: e in s.entries ==> e in t.entries && t.entries[e] == s.entries[e]
    requires forall f :: f in s.flights ==> f in t.flights && t.flights[f].started == s.flights[f].started
    requires Held(pc).Some? ==> NewEnough(s, s.calls[g].key, Held(pc).value, inv)
    requires Boarded(g, pc).None? || Boarded(g, pc) == Boarded(g, s.calls[g].pc)
    ensures CallFresh(t, g, inv)
  {
  }

  lemma CallFreshStep<K, V>(w: World<K, V>, s: State<K, V>, g: nat, step: CallStep, inv: Invalidation<K, V>, since: nat)
    requires Shape(w, s) && CallCan(s, g, step)
    requires FreshSince(s, s.calls[g].key, inv, since) && since <= g
    ensures var t := Next(CallDo(w, s, g, step)); g in t.calls ==> CallFresh(t, g, inv)
  {
    assert CallFresh(s, g, inv);
    hide Shape, CallFresh;
    if step.TryGetWith? {
      CallFreshTry(w, s, g, inv);
    } else if step.Insert? {
      CallFreshInsert(w, s, g, inv);
    } else {
      CallFreshOther(w, s, g, step, inv, since);
    }
  }

  lemma CallFreshOther<K, V>(
      w: World<K, V>, s: State<K, V>, g: nat, step: CallStep, inv: Invalidation<K, V>, since: nat)
    requires Shape(w, s) && CallCan(s, g, step) && !step.TryGetWith? && !step.Insert? && CallFresh(s, g, inv)
    requires FreshSince(s, s.calls[g].key, inv, since) && since <= g
    ensures var t := Next(CallDo(w, s, g, step)); g in t.calls ==> CallFresh(t, g, inv)
  {
    hide Shape, CallFresh, FreshSince, NewEnough, StepMove, CallDo;
    CallFrame(w, s, g, step);
    if StepMove(w, s, g, step).Goto? {
      TakesFresh(w, s, g, step, inv, since);
      OwnFlights(w, s, g, step);
      BoardedAfter(w, s, g, step);
      hide CallCan;
      CallFreshMove(s, Next(CallDo(w, s, g, step)), g, StepMove(w, s, g, step).pc, inv);
    }
  }

  /** The other calls and the answers, once call `g` made its move. */
  lemma FreshAfterMove<K, V>(
      s: State<K, V>, t: State<K, V>, g: nat, move: Move, k: K, inv: Invalidation<K, V>, since: nat)
    requires FreshSince(s, k, inv, since) && Settled(t, k, inv)
    requires g in s.calls && t.calls == Take(s, g, move).calls && t.answers == Take(s, g, move).answers
    requires forall e :: e in s.entries ==> e in t.entries && t.entries[e] == s.entries[e]
    requires forall f :: f in s.flights ==> f in t.flights && t.flights[f].started == s.flights[f].started
    requires s.calls[g].key == k && since <= g && move.Goto? ==> CallFresh(t, g, inv)
    requires s.calls[g].key == k && since <= g && move.Answer? && Taken(move).Some? ==>
               NewEnough(s, k, Taken(move).value, inv)
    ensures FreshSince(t, k, inv, since)
  {
    hide Settled;
    forall h | h in t.calls && since <= h && t.calls[h].key == k ensures CallFresh(t, h, inv) {
      if h != g { assert CallFresh(s, h, inv); }
    }
    forall i | 0 <= i < |t.answers| ensures AnswerFresh(t, t.answers[i], k, inv, since) {
      if i < |s.answers| { assert AnswerFresh(s, s.answers[i], k, inv, since); }
    }
  }

  lemma FreshCallStep<K, V>(
      w: World<K, V>, s: State<K, V>, g: nat, step: CallStep, k: K, inv: Invalidation<K, V>, since: nat)
    requires Shape(w, s) && FreshSince(s, k, inv, since) && CallCan(s, g, step)
    ensures FreshSince(Next(CallDo(w, s, g, step)), k, inv, since)
  {
    hide Shape, Settled, CallsFresh, AnswersFresh, CallFresh, NewEnough;
    var t, move := Next(CallDo(w, s, g, step)), StepMove(w, s, g, step);
    SettledCall(w, s, g, step, k, inv);
    OwnFlights(w, s, g, step);
    CallFrame(w, s, g, step);
    assert step.Insert? ==> move.Goto?;
    hide CallDo, StepMove, CallCan;
    if s.calls[g].key == k && since <= g {
      CallFreshStep(w, s, g, step, inv, since);
      if !step.Insert? { TakesFresh(w, s, g, step, inv, since); }
    }
    hide FreshSince;
    FreshAfterMove(s, t, g, move, k, inv, since);
  }

  lemma FreshKept<K, V>(w: World<K, V>, s: State<K, V>, ev: Event<K, V>, k: K, inv: Invalidation<K, V>, since: nat)
    requires Shape(w, s) && FreshSince(s, k, inv, since) && inv in s.done && Enabled(s, ev) && !Undoes(s, ev)
    ensures FreshSince(Apply(w, s, ev), k, inv, since)
  {
    hide Shape, Undoes, FreshSince, CallDo, RefreshDo, CallCan, RefreshCan;
    match ev
    case Advance(g, step) => FreshCallStep(w, s, g, step, k, inv, since);
    case Refreshing(r, step) => FreshRefreshStep(w, s, r, step, k, inv, since);
    case _ => FreshElsewhere(w, s, ev, k, inv, since);
  }
}
