/**
The counters over whole runs: every call is counted once, every stale hit ends in exactly one of
the refresh outcomes, and the epoch counts the invalidations.
*/
module SwrAccounting {
  import opened Wrappers
  import opened SwrModel
  import opened SwrInvariants

  /** Calls not yet counted. */
  ghost function Uncounted<K, V>(s: State<K, V>): set<nat> {
    set g | g in s.calls && s.calls[g].pc.Begun?
  }

  predicate OwesRefresh(pc: Pc) {
    pc.StaleHit? || pc.WonCas?
  }

  /** Calls counted as stale hits that have not yet skipped or spawned their refresh. */
  ghost function Deciding<K, V>(s: State<K, V>): set<nat> {
    set g | g in s.calls && OwesRefresh(s.calls[g].pc)
  }

  /** Refreshes whose outcome is not yet counted. */
  ghost function Underway<K, V>(s: State<K, V>): set<nat> {
    set r | r in s.refreshes && !s.refreshes[r].phase.Exiting?
  }

  /** Invalidations that moved the epoch and are not yet counted. */
  ghost function Unannounced<K, V>(s: State<K, V>): set<nat> {
    set i | i in s.pending && !s.pending[i].ByPredicate()
  }

  /** Calls begun, less those counted as a hit, a stale hit, a miss or a negative hit. */
  function CallBalance(m: Metrics): int {
    m.calls - (m.hits + m.staleHits + m.misses + m.negativeHits)
  }

  /** Stale hits, less the refreshes skipped, succeeded, failed, dropped or panicked. */
  function RefreshBalance(m: Metrics): int {
    m.staleHits
    - (m.skippedInflight + m.refreshSuccess + m.refreshFailure + (m.droppedEpoch - m.hardDrops) + m.panics)
  }

  ghost predicate Accounts<K, V>(s: State<K, V>) {
    && CallBalance(s.metrics) == |Uncounted(s)|
    && RefreshBalance(s.metrics) == |Underway(s)| + |Deciding(s)|
    && s.epoch == s.metrics.invalidations + |Unannounced(s)|
  }

  lemma AfterMove<K, V>(s: State<K, V>, t: State<K, V>, g: nat, move: Move)
    requires g in s.calls && t.calls == Take(s, g, move).calls
    requires move.Goto? ==> !move.pc.Begun?
    ensures Uncounted(t) == Uncounted(s) - {g}
    ensures Deciding(t) == if move.Goto? && OwesRefresh(move.pc) then Deciding(s) + {g} else Deciding(s) - {g}
  {
  }

  lemma CallCounts<K, V>(w: World<K, V>, s: State<K, V>, g: nat, step: CallStep)
    requires CallCan(s, g, step)
    ensures var m, m', move := s.metrics, CallDo(w, s, g, step).metrics, StepMove(w, s, g, step);
            && CallBalance(m') == CallBalance(m) - (if step.Lookup? then 1 else 0)
            && RefreshBalance(m') == RefreshBalance(m)
                 + (if step.Lookup? && move.Goto? && OwesRefresh(move.pc) then 1 else 0)
                 - (if step.Cas? && move.Answer? then 1 else 0)
            && m'.invalidations == m.invalidations
  {
    CallFrame(w, s, g, step);
    match step
    case Lookup =>
    case Cas =>
    case Evacuate =>
    case _ => hide CallDo, CallCan;
  }

  lemma SetsAfterCall<K, V>(w: World<K, V>, s: State<K, V>, g: nat, step: CallStep)
    requires CallCan(s, g, step)
    ensures var t, move := Next(CallDo(w, s, g, step)), StepMove(w, s, g, step);
            && Uncounted(t) == Uncounted(s) - {g}
            && (g in Uncounted(s) <==> step.Lookup?)
            && Deciding(t) == (if move.Goto? && OwesRefresh(move.pc) then Deciding(s) + {g} else Deciding(s) - {g})
            && (g in Deciding(s) <==> step.Cas? || step.Spawn?)
            && Underway(t) == (if step.Spawn? then Underway(s) + {s.stamp} else Underway(s))
            && Unannounced(t) == Unannounced(s)
  {
    CallFrame(w, s, g, step);
    MovesAgree(w, s, g, step);
    var t, move := Next(CallDo(w, s, g, step)), StepMove(w, s, g, step);
    assert Underway(t) == if step.Spawn? then Underway(s) + {s.stamp} else Underway(s);
    hide CallDo, StepMove, CallCan;
    AfterMove(s, t, g, move);
  }

  lemma AccountsCallStep<K, V>(w: World<K, V>, s: State<K, V>, g: nat, step: CallStep)
    requires Shape(w, s) && Accounts(s) && CallCan(s, g, step)
    ensures Accounts(Next(CallDo(w, s, g, step)))
  {
    hide Shape, CallBalance, RefreshBalance, Uncounted, Deciding, Underway, Unannounced, OwesRefresh;
    hide CallDo, StepMove, CallCan;
    NotUnderway(w, s);
    CallFrame(w, s, g, step);
    CallCounts(w, s, g, step);
    SetsAfterCall(w, s, g, step);
    MovesAgree(w, s, g, step);
  }

  lemma NotUnderway<K, V>(w: World<K, V>, s: State<K, V>)
    requires Shape(w, s)
    ensures s.stamp !in Underway(s) && s.stamp !in Uncounted(s) && s.stamp !in Unannounced(s)
  {
    hide Shape;
    Unused(w, s);
    PendingKnown(w, s);
  }

  /** Only a lookup leaves `Begun` and opens a refresh decision; the flag or the spawn closes it. */
  lemma MovesAgree<K, V>(w: World<K, V>, s: State<K, V>, g: nat, step: CallStep)
    requires CallCan(s, g, step)
    ensures var pc, move := s.calls[g].pc, StepMove(w, s, g, step);
            && (move.Goto? ==> !move.pc.Begun?)
            && (pc.Begun? <==> step.Lookup?)
            && (OwesRefresh(pc) <==> step.Cas? || step.Spawn?)
            && (step.Spawn? ==> move.Answer?)
            && (move.Goto? && OwesRefresh(move.pc) ==> step.Lookup? || step.Cas?)
            && (step.Cas? ==> move.Answer? || OwesRefresh(move.pc))
  {
  }

  lemma RefreshCounts<K, V>(w: World<K, V>, s: State<K, V>, r: nat, step: RefreshStep)
    requires RefreshCan(s, r, step)
    ensures var t := RefreshDo(w, s, r, step);
            && CallBalance(t.metrics) == CallBalance(s.metrics)
            && t.metrics.invalidations == s.metrics.invalidations
            && RefreshBalance(t.metrics) == RefreshBalance(s.metrics)
                 - (if !step.Exit? && t.refreshes[r].phase.Exiting? then 1 else 0)
  {
  }

  lemma AccountsRefreshStep<K, V>(w: World<K, V>, s: State<K, V>, r: nat, step: RefreshStep)
    requires Accounts(s) && RefreshCan(s, r, step)
    ensures Accounts(Next(RefreshDo(w, s, r, step)))
  {
    hide RefreshDo, RefreshCan, CallBalance, RefreshBalance, Uncounted, Deciding, Underway, Unannounced;
    RefreshFrame(w, s, r, step);
    RefreshCounts(w, s, r, step);
    SetsAfterRefresh(w, s, r, step);
  }

  lemma SetsAfterRefresh<K, V>(w: World<K, V>, s: State<K, V>, r: nat, step: RefreshStep)
    requires RefreshCan(s, r, step)
    ensures var t := Next(RefreshDo(w, s, r, step));
            && Uncounted(t) == Uncounted(s) && Deciding(t) == Deciding(s) && Unannounced(t) == Unannounced(s)
            && (step.Exit? ==> Underway(t) == Underway(s))
            && (!step.Exit? ==>
                  && r in Underway(s) && r in t.refreshes
                  && Underway(t) == if t.refreshes[r].phase.Exiting? then Underway(s) - {r} else Underway(s))
  {
    RefreshFrame(w, s, r, step);
    Acts(w, s, r, step);
    hide RefreshDo, RefreshCan;
    var t := Next(RefreshDo(w, s, r, step));
    if !step.Exit? {
      assert Underway(t) == if t.refreshes[r].phase.Exiting? then Underway(s) - {r} else Underway(s);
    }
  }

  lemma Acts<K, V>(w: World<K, V>, s: State<K, V>, r: nat, step: RefreshStep)
    requires RefreshCan(s, r, step)
    ensures if step.Exit? then Underway(Next(RefreshDo(w, s, r, step))) == Underway(s) else r in Underway(s)
  {
  }

  lemma SetsElsewhere<K, V>(w: World<K, V>, s: State<K, V>, ev: Event<K, V>)
    requires Shape(w, s) && Enabled(s, ev) && !ev.Advance? && !ev.Refreshing?
    ensures var t := Apply(w, s, ev);
            && Underway(t) == Underway(s) && Deciding(t) == Deciding(s)
            && Uncounted(t) == (if ev.Begin? then Uncounted(s) + {s.stamp} else Uncounted(s))
            && Unannounced(t) == (match ev
                                  case InvalidateBegin(scope) =>
                                    if scope.ByPredicate() then Unannounced(s) else Unannounced(s) + {s.stamp}
                                  case InvalidateApply(i) => Unannounced(s) - {i}
                                  case _ => Unannounced(s))
  {
    hide Shape, CallDo, RefreshDo, CallCan, RefreshCan;
    Unused(w, s);
    PendingKnown(w, s);
  }

  lemma AccountsElsewhere<K, V>(w: World<K, V>, s: State<K, V>, ev: Event<K, V>)
    requires Shape(w, s) && Accounts(s) && Enabled(s, ev) && !ev.Advance? && !ev.Refreshing?
    ensures Accounts(Apply(w, s, ev))
  {
    hide Shape, Enabled, Apply, CallBalance, RefreshBalance, Uncounted, Deciding, Underway, Unannounced;
    NotUnderway(w, s);
    SetsElsewhere(w, s, ev);
    CountsElsewhere(w, s, ev);
  }

  lemma CountsElsewhere<K, V>(w: World<K, V>, s: State<K, V>, ev: Event<K, V>)
    requires Enabled(s, ev) && !ev.Advance? && !ev.Refreshing?
    ensures var t := Apply(w, s, ev);
            && CallBalance(t.metrics) == CallBalance(s.metrics) + (if ev.Begin? then 1 else 0)
            && RefreshBalance(t.metrics) == RefreshBalance(s.metrics)
            && t.epoch == s.epoch + (if ev.InvalidateBegin? then 1 else 0)
            && t.metrics.invalidations == s.metrics.invalidations
                 + (match ev
                    case InvalidateBegin(scope) => if scope.ByPredicate() then 1 else 0
                    case InvalidateApply(i) => if i in Unannounced(s) then 1 else 0
                    case _ => 0)
  {
    hide CallDo, RefreshDo, CallCan, RefreshCan;
  }

  lemma PendingKnown<K, V>(w: World<K, V>, s: State<K, V>)
    requires Shape(w, s)
    ensures s.stamp !in s.pending
  {
  }

  lemma AccountsKept<K, V>(w: World<K, V>, s: State<K, V>, ev: Event<K, V>)
    requires Shape(w, s) && Accounts(s) && Enabled(s, ev)
    ensures Accounts(Apply(w, s, ev))
  {
    hide Shape, Accounts, CallDo, RefreshDo, CallCan, RefreshCan;
    match ev
    case Advance(g, step) => AccountsCallStep(w, s, g, step);
    case Refreshing(r, step) => AccountsRefreshStep(w, s, r, step);
    case _ => AccountsElsewhere(w, s, ev);
  }
}
