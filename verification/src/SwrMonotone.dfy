/**
Monotone reads. The entries a slot receives come from ever later loads, and a call that begins
after another answered never answers with an older load. Every event keeps that but the insert of
a refresh out of its turn; `SwrRace` has a run with one.
*/
module SwrMonotone {
  import opened Wrappers
  import opened SwrModel
  import opened SwrInvariants
  import opened SwrSafety

  /** Loads of `e` are no later than the last one its key's slot received. */
  ghost predicate Seen<K, V>(s: State<K, V>, k: K, e: nat) {
    e in s.entries && k in s.latest && s.entries[e].started <= s.latest[k]
  }

  ghost predicate SlotMono<K, V>(s: State<K, V>, k: K)
    requires k in s.slots
  {
    s.slots[k] in s.entries && k in s.latest && s.latest[k] == s.entries[s.slots[k]].started
  }

  /** A load in flight for `k` began after everything its slot ever received. */
  ghost predicate ActiveMono<K, V>(s: State<K, V>, k: K)
    requires k in s.active
  {
    s.active[k] in s.flights && (k in s.latest ==> s.latest[k] < s.flights[s.active[k]].started)
  }

  ghost predicate FlightMono<K, V>(s: State<K, V>, f: nat)
    requires f in s.flights
  {
    s.flights[f].phase.Inserted? ==> Seen(s, s.flights[f].key, s.flights[f].phase.entry)
  }

  /** The entry a call holds, if it holds one. */
  function Held(pc: Pc): Option<nat> {
    match pc
    case StaleHit(e) => Some(e)
    case WonCas(e) => Some(e)
    case Holding(_, e, _) => Some(e)
    case Condemned(e, _) => Some(e)
    case _ => None
  }

  /** The flight a call waits for or leads. */
  function Boarded(g: nat, pc: Pc): Option<nat> {
    match pc
    case Waiting(_, f) => Some(f)
    case Leading(_) => Some(g)
    case _ => None
  }

  ghost predicate CallMono<K, V>(s: State<K, V>, g: nat)
    requires g in s.calls
  {
    var c := s.calls[g];
    && (c.floor == 0 || (c.key in s.latest && c.floor <= s.latest[c.key]))
    && (Held(c.pc).Some? ==>
          Seen(s, c.key, Held(c.pc).value) && c.floor <= s.entries[Held(c.pc).value].started)
    && (Boarded(g, c.pc).Some? ==>
          Boarded(g, c.pc).value in s.flights && c.floor <= s.flights[Boarded(g, c.pc).value].started)
  }

  /** The entry an answer was given from, if it was. */
  function Given(o: Outcome): Option<nat> {
    match o
    case Served(e) => Some(e)
    case Fetched(e) => Some(e)
    case _ => None
  }

  ghost predicate AnswerMono<K, V>(s: State<K, V>, a: Return<K>) {
    Given(a.outcome).Some? ==> Seen(s, a.key, Given(a.outcome).value)
  }

  /** `a` answered before the call `g` began, so its load is below that call's floor. */
  ghost predicate Below<K, V>(s: State<K, V>, a: Return<K>, g: nat)
    requires g in s.calls
  {
    a.key == s.calls[g].key && a.at < g && Given(a.outcome).Some? ==>
      Given(a.outcome).value in s.entries && s.entries[Given(a.outcome).value].started <= s.calls[g].floor
  }

  /** If `b`'s call began after `a` answered, `b`'s load is no older. */
  ghost predicate InOrder<K, V>(s: State<K, V>, a: Return<K>, b: Return<K>) {
    a.key == b.key && a.at < b.begun && Given(a.outcome).Some? && Given(b.outcome).Some? ==>
      Given(a.outcome).value in s.entries && Given(b.outcome).value in s.entries &&
      s.entries[Given(a.outcome).value].started <= s.entries[Given(b.outcome).value].started
  }

  ghost predicate SlotsMono<K, V>(s: State<K, V>) {
    && (forall k :: k in s.slots ==> SlotMono(s, k))
    && (forall k :: k in s.active ==> ActiveMono(s, k))
    && (forall k :: k in s.latest ==> s.latest[k] < s.stamp)
    && (forall f :: f in s.flights ==> FlightMono(s, f))
  }

  ghost predicate CallsMono<K, V>(s: State<K, V>) {
    forall g :: g in s.calls ==> CallMono(s, g)
  }

  ghost predicate AnswersMono<K, V>(s: State<K, V>) {
    && (forall i :: 0 <= i < |s.answers| ==> AnswerMono(s, s.answers[i]))
    && (forall i, g :: 0 <= i < |s.answers| && g in s.calls ==> Below(s, s.answers[i], g))
    && (forall i, j :: 0 <= i < |s.answers| && 0 <= j < |s.answers| ==> InOrder(s, s.answers[i], s.answers[j]))
  }

  ghost predicate Monotone<K, V>(s: State<K, V>) {
    SlotsMono(s) && CallsMono(s) && AnswersMono(s)
  }

  // ---- Nothing seen is unseen. ----

  ghost predicate Onward<K, V>(s: State<K, V>, t: State<K, V>) {
    && s.stamp < t.stamp
    && (forall e :: e in s.entries ==> e in t.entries && t.entries[e] == s.entries[e])
    && (forall k :: k in s.latest ==> k in t.latest && s.latest[k] <= t.latest[k])
    && (forall f :: f in s.flights ==>
          f in t.flights && t.flights[f].key == s.flights[f].key && t.flights[f].started == s.flights[f].started)
  }

  lemma CallsMonoKept<K, V>(s: State<K, V>, t: State<K, V>)
    requires CallsMono(s) && Onward(s, t)
    requires forall g :: g in t.calls ==> (g in s.calls && t.calls[g] == s.calls[g]) || CallMono(t, g)
    ensures CallsMono(t)
  {
    forall g | g in t.calls ensures CallMono(t, g) {
      if g in s.calls { assert CallMono(s, g); }
    }
  }

  /** No new answer. */
  lemma AnswersMonoKept<K, V>(s: State<K, V>, t: State<K, V>)
    requires AnswersMono(s) && Onward(s, t) && t.answers == s.answers
    requires forall g :: g in t.calls && g in s.calls ==>
               t.calls[g].key == s.calls[g].key && t.calls[g].floor == s.calls[g].floor
    requires forall i, g :: 0 <= i < |t.answers| && g in t.calls && g !in s.calls ==> Below(t, t.answers[i], g)
    ensures AnswersMono(t)
  {
    forall i, g | 0 <= i < |t.answers| && g in t.calls ensures Below(t, t.answers[i], g) {
      if g in s.calls { assert Below(s, s.answers[i], g); }
    }
    forall i, j | 0 <= i < |t.answers| && 0 <= j < |t.answers| ensures InOrder(t, t.answers[i], t.answers[j]) {
      assert InOrder(s, s.answers[i], s.answers[j]);
    }
  }

  /** Call `g` answers. */
  lemma AnswersMonoGrow<K, V>(s: State<K, V>, t: State<K, V>, g: nat, a: Return<K>)
    requires AnswersMono(s) && Onward(s, t) && g in s.calls
    requires t.answers == s.answers + [a] && t.calls == s.calls - {g}
    requires a.key == s.calls[g].key && a.begun == g && a.at == s.stamp
    requires forall h :: h in s.calls ==> h < s.stamp
    requires forall i :: 0 <= i < |s.answers| ==> s.answers[i].begun < s.stamp
    requires Given(a.outcome).Some? ==>
               Seen(t, a.key, Given(a.outcome).value) && s.calls[g].floor <= t.entries[Given(a.outcome).value].started
    ensures AnswersMono(t)
  {
    var n := |s.answers|;
    forall i | 0 <= i < |t.answers| ensures AnswerMono(t, t.answers[i]) {
      if i < n { assert AnswerMono(s, s.answers[i]); }
    }
    forall i, h | 0 <= i < |t.answers| && h in t.calls ensures Below(t, t.answers[i], h) {
      if i < n { assert Below(s, s.answers[i], h); }
    }
    forall i, j | 0 <= i < |t.answers| && 0 <= j < |t.answers| ensures InOrder(t, t.answers[i], t.answers[j]) {
      if i < n && j < n {
        assert InOrder(s, s.answers[i], s.answers[j]);
      } else if i < n {
        assert Below(s, s.answers[i], g);
      }
    }
  }

  // ---- Steps of a call. ----

  /** `e`, no older than the call's floor, is what the call may take from its key. */
  ghost predicate Fit<K, V>(s: State<K, V>, g: nat, e: nat)
    requires g in s.calls
  {
    Seen(s, s.calls[g].key, e) && s.calls[g].floor <= s.entries[e].started
  }

  lemma SlotFits<K, V>(s: State<K, V>, g: nat)
    requires Monotone(s) && g in s.calls && s.calls[g].key in s.slots
    ensures Fit(s, g, s.slots[s.calls[g].key])
  {
    assert SlotMono(s, s.calls[g].key) && CallMono(s, g);
  }

  lemma FlightFits<K, V>(w: World<K, V>, s: State<K, V>, g: nat)
    requires Shape(w, s) && Monotone(s) && g in s.calls && s.calls[g].pc.Waiting?
    ensures s.calls[g].pc.flight in s.flights
    ensures s.flights[s.calls[g].pc.flight].phase.Inserted? ==> Fit(s, g, s.flights[s.calls[g].pc.flight].phase.entry)
  {
    Standing(w, s, g);
    FlightKnown(w, s, s.calls[g].pc.flight);
    hide Shape;
    assert CallMono(s, g) && FlightMono(s, s.calls[g].pc.flight);
  }

  lemma HeldFits<K, V>(s: State<K, V>, g: nat)
    requires Monotone(s) && g in s.calls
    ensures Held(s.calls[g].pc).Some? ==> Fit(s, g, Held(s.calls[g].pc).value)
    ensures || s.calls[g].floor == 0
            || (s.calls[g].key in s.latest && s.calls[g].floor <= s.latest[s.calls[g].key] < s.stamp)
  {
    assert CallMono(s, g);
  }

  /** What a move answers with or goes on with. */
  function Taken(move: Move): Option<nat> {
    match move
    case Goto(pc) => Held(pc)
    case Answer(outcome) => Given(outcome)
  }

  /** Short of inserting its own load, whatever a call takes fits it. */
  lemma MoveFits<K, V>(w: World<K, V>, s: State<K, V>, g: nat, step: CallStep)
    requires Shape(w, s) && Monotone(s) && CallCan(s, g, step) && !step.Insert?
    ensures var move := StepMove(w, s, g, step); Taken(move).Some? ==> Fit(s, g, Taken(move).value)
  {
    hide Shape, Monotone, Fit;
    if s.calls[g].key in s.slots { SlotFits(s, g); }
    if s.calls[g].pc.Waiting? { FlightFits(w, s, g); }
    HeldFits(s, g);
  }

  /** Slots only emptied; the loads are as they were. */
  lemma SlotsMonoShrink<K, V>(s: State<K, V>, t: State<K, V>)
    requires SlotsMono(s) && s.stamp < t.stamp
    requires t.entries == s.entries && t.flights == s.flights && t.active == s.active && t.latest == s.latest
    requires forall k :: k in t.slots ==> k in s.slots && t.slots[k] == s.slots[k]
    ensures SlotsMono(t) && Onward(s, t)
  {
    forall k | k in t.slots ensures SlotMono(t, k) { assert SlotMono(s, k); }
    forall k | k in t.active ensures ActiveMono(t, k) { assert ActiveMono(s, k); }
    forall f | f in t.flights ensures FlightMono(t, f) { assert FlightMono(s, f); }
  }

  lemma SlotsMonoLead<K, V>(w: World<K, V>, s: State<K, V>, g: nat)
    requires Shape(w, s) && SlotsMono(s) && g in s.calls && s.calls[g].pc.Ready?
    ensures var t := Next(DoTryGetWith(s, g)); SlotsMono(t) && Onward(s, t)
  {
    hide Shape, SlotsMono;
    if TryGetWithMove(s, g).pc.Leading? {
      SlotsMonoNewLeader(w, s, g);
    } else {
      SlotsMonoShrink(s, Next(DoTryGetWith(s, g)));
    }
  }

  lemma SlotsMonoNewLeader<K, V>(w: World<K, V>, s: State<K, V>, g: nat)
    requires Shape(w, s) && SlotsMono(s) && g in s.calls && s.calls[g].pc.Ready? && TryGetWithMove(s, g).pc.Leading?
    ensures var t := Next(DoTryGetWith(s, g)); SlotsMono(t) && Onward(s, t)
  {
    hide Shape;
    Standing(w, s, g);
    var t, k0 := Next(DoTryGetWith(s, g)), s.calls[g].key;
    assert t.active == s.active[k0 := g] && t.flights == s.flights[g := Flight(k0, s.stamp, Loading)];
    hide DoTryGetWith;
    forall k | k in t.slots ensures SlotMono(t, k) { assert SlotMono(s, k); }
    forall k | k in t.active ensures ActiveMono(t, k) {
      if k != k0 { assert ActiveMono(s, k); }
    }
    forall f | f in t.flights ensures FlightMono(t, f) {
      if f != g { assert FlightMono(s, f); }
    }
  }

  lemma SlotsMonoLoadOk<K, V>(w: World<K, V>, s: State<K, V>, g: nat, readAt: nat)
    requires Shape(w, s) && SlotsMono(s) && LoaderRuns(s, g)
    ensures var t := Next(DoLoadOk(w, s, g, readAt)); SlotsMono(t) && Onward(s, t)
  {
    hide Shape;
    Unused(w, s);
    var t := Next(DoLoadOk(w, s, g, readAt));
    forall k | k in t.slots ensures SlotMono(t, k) { assert SlotMono(s, k); }
    forall k | k in t.active ensures ActiveMono(t, k) { assert ActiveMono(s, k); }
    forall f | f in t.flights ensures FlightMono(t, f) {
      if f != g { assert FlightMono(s, f); }
    }
  }

  lemma SlotsMonoLoadGone<K, V>(s: State<K, V>, g: nat, phase: FlightPhase, outcome: Outcome)
    requires SlotsMono(s) && LoaderRuns(s, g) && !phase.Inserted?
    ensures var t := Next(DoLoadGone(s, g, phase, outcome)); SlotsMono(t) && Onward(s, t)
  {
    var t := Next(DoLoadGone(s, g, phase, outcome));
    forall k | k in t.slots ensures SlotMono(t, k) { assert SlotMono(s, k); }
    forall k | k in t.active ensures ActiveMono(t, k) { assert ActiveMono(s, k); }
    forall f | f in t.flights ensures FlightMono(t, f) {
      if f != g { assert FlightMono(s, f); }
    }
  }

  /** The insert of a load replaces nothing newer. */
  lemma SlotsMonoInsert<K, V>(w: World<K, V>, s: State<K, V>, g: nat)
    requires Shape(w, s) && SlotsMono(s) && CallCan(s, g, Insert)
    ensures var t := Next(DoInsert(s, g)); SlotsMono(t) && Onward(s, t)
    ensures var k := s.flights[g].key;
            k in s.latest ==> s.latest[k] < s.entries[s.flights[g].phase.entry].started
  {
    hide Shape;
    Standing(w, s, g);
    EntryKnown(w, s, s.flights[g].phase.entry);
    var t, k0 := Next(DoInsert(s, g)), s.flights[g].key;
    assert ActiveMono(s, k0);
    forall k | k in t.slots ensures SlotMono(t, k) {
      if k != k0 { assert SlotMono(s, k); }
    }
    forall k | k in t.active ensures ActiveMono(t, k) { assert ActiveMono(s, k); }
    forall f | f in t.flights ensures FlightMono(t, f) {
      if f != g { assert FlightMono(s, f); }
    }
  }

  lemma SlotsMonoCall<K, V>(w: World<K, V>, s: State<K, V>, g: nat, step: CallStep)
    requires Shape(w, s) && SlotsMono(s) && CallCan(s, g, step)
    ensures var t := Next(CallDo(w, s, g, step)); SlotsMono(t) && Onward(s, t)
  {
    hide Shape, SlotsMono, Onward;
    if Loads(step) {
      hide DoTryGetWith, DoLoadOk, DoLoadGone, DoInsert;
      match step
      case TryGetWith => SlotsMonoLead(w, s, g);
      case LoadOk(readAt) => SlotsMonoLoadOk(w, s, g, readAt);
      case LoadErr => SlotsMonoLoadGone(s, g, FlightFailed, Failed);
      case LoadPanic => SlotsMonoLoadGone(s, g, FlightPanicked, Panicked);
      case Insert => SlotsMonoInsert(w, s, g);
    } else {
      LoadFrame(w, s, g, step);
      CallFrame(w, s, g, step);
      hide CallDo, StepMove, CallCan;
      SlotsMonoShrink(s, Next(CallDo(w, s, g, step)));
    }
  }

  /** A call that keeps its flight and takes what fits it stays in order. */
  lemma CallMonoMove<K, V>(s: State<K, V>, t: State<K, V>, g: nat, pc: Pc)
    requires g in s.calls && CallMono(s, g) && Onward(s, t)
    requires g in t.calls && t.calls[g] == s.calls[g].(pc := pc)
    requires Held(pc).Some? ==> Fit(s, g, Held(pc).value)
    requires Boarded(g, pc).None? || Boarded(g, pc) == Boarded(g, s.calls[g].pc)
    ensures CallMono(t, g)
  {
  }

  lemma ActiveFits<K, V>(s: State<K, V>, g: nat)
    requires Monotone(s) && g in s.calls && s.calls[g].key in s.active
    ensures s.active[s.calls[g].key] in s.flights
    ensures s.calls[g].floor <= s.flights[s.active[s.calls[g].key]].started
  {
    assert ActiveMono(s, s.calls[g].key) && CallMono(s, g);
  }

  lemma CallMonoTry<K, V>(s: State<K, V>, g: nat)
    requires Monotone(s) && g in s.calls && s.calls[g].pc.Ready?
    ensures CallMono(Next(DoTryGetWith(s, g)), g)
  {
    hide Monotone;
    HeldFits(s, g);
    var t := Next(DoTryGetWith(s, g));
    assert t.entries == s.entries && t.latest == s.latest;
    if s.calls[g].key in s.slots {
      SlotFits(s, g);
      assert t.calls[g].pc == Holding(s.calls[g].pc.epochBefore, s.slots[s.calls[g].key], false);
    } else if s.calls[g].key in s.active {
      ActiveFits(s, g);
      assert t.calls[g].pc == Waiting(s.calls[g].pc.epochBefore, s.active[s.calls[g].key]);
    } else {
      assert t.calls[g].pc == Leading(s.calls[g].pc.epochBefore) && t.flights[g].started == s.stamp;
    }
  }

  lemma CallMonoInsert<K, V>(w: World<K, V>, s: State<K, V>, g: nat)
    requires Shape(w, s) && Monotone(s) && CallCan(s, g, Insert)
    ensures CallMono(Next(DoInsert(s, g)), g)
  {
    hide Shape;
    Standing(w, s, g);
    SlotsMonoInsert(w, s, g);
    assert CallMono(s, g);
    hide Monotone;
  }

  lemma BoardedAfter<K, V>(w: World<K, V>, s: State<K, V>, g: nat, step: CallStep)
    requires CallCan(s, g, step) && !step.TryGetWith? && StepMove(w, s, g, step).Goto?
    ensures var pc := StepMove(w, s, g, step).pc; Boarded(g, pc).None? || Boarded(g, pc) == Boarded(g, s.calls[g].pc)
  {
  }

  lemma CallMonoStep<K, V>(w: World<K, V>, s: State<K, V>, g: nat, step: CallStep)
    requires Shape(w, s) && Monotone(s) && CallCan(s, g, step)
    ensures var t := Next(CallDo(w, s, g, step)); g in t.calls ==> CallMono(t, g)
  {
    assert CallMono(s, g);
    hide Shape, Monotone, CallMono;
    if step.TryGetWith? {
      CallMonoTry(s, g);
    } else if step.Insert? {
      CallMonoInsert(w, s, g);
    } else {
      var t := Next(CallDo(w, s, g, step));
      MoveFits(w, s, g, step);
      CallFrame(w, s, g, step);
      OnwardCall(w, s, g, step);
      if StepMove(w, s, g, step).Goto? {
        BoardedAfter(w, s, g, step);
        hide CallDo, StepMove, CallCan;
        CallMonoMove(s, t, g, StepMove(w, s, g, step).pc);
      }
    }
  }

  lemma OnwardCall<K, V>(w: World<K, V>, s: State<K, V>, g: nat, step: CallStep)
    requires Shape(w, s) && Monotone(s) && CallCan(s, g, step)
    ensures var t := Next(CallDo(w, s, g, step)); SlotsMono(t) && Onward(s, t)
  {
    hide CallDo, CallCan, Shape, SlotsMono, CallsMono, AnswersMono, Onward;
    SlotsMonoCall(w, s, g, step);
  }

  lemma MonotoneCallStep<K, V>(w: World<K, V>, s: State<K, V>, g: nat, step: CallStep)
    requires Shape(w, s) && Monotone(s) && CallCan(s, g, step)
    ensures Monotone(Next(CallDo(w, s, g, step)))
  {
    hide Shape, SlotsMono, CallsMono, AnswersMono, Onward, CallMono;
    var t, move := Next(CallDo(w, s, g, step)), StepMove(w, s, g, step);
    SlotsMonoCall(w, s, g, step);
    CallMonoStep(w, s, g, step);
    CallFrame(w, s, g, step);
    if !step.Insert? { MoveFits(w, s, g, step); }
    StampsKnown(w, s);
    hide CallDo, StepMove, CallCan;
    CallsMonoKept(s, t);
    if move.Answer? {
      FitsOnward(s, t, g, move.outcome);
      AnswersMonoGrow(s, t, g, Return(s.calls[g].key, g, s.calls[g].readClock, s.stamp, move.outcome));
    } else {
      AnswersMonoKept(s, t);
    }
  }

  lemma FitsOnward<K, V>(s: State<K, V>, t: State<K, V>, g: nat, o: Outcome)
    requires Onward(s, t) && g in s.calls && (Given(o).Some? ==> Fit(s, g, Given(o).value))
    ensures Given(o).Some? ==>
              Seen(t, s.calls[g].key, Given(o).value) && s.calls[g].floor <= t.entries[Given(o).value].started
  {
  }

  lemma StampsKnown<K, V>(w: World<K, V>, s: State<K, V>)
    requires Shape(w, s)
    ensures forall h :: h in s.calls ==> h < s.stamp
    ensures forall i :: 0 <= i < |s.answers| ==> s.answers[i].begun < s.answers[i].at < s.stamp
  {
    assert forall h :: h in s.calls ==> CallOk(w, s, h);
    assert forall i :: 0 <= i < |s.answers| ==> AnswerOk(w, s, s.answers[i]);
  }

  // ---- The other events. ----

  /** The load of refresh `r` is later than the last its key received and earlier than any in flight. */
  ghost predicate InTurn<K, V>(s: State<K, V>, r: nat)
    requires r in s.refreshes && s.refreshes[r].phase.Confirmed?
  {
    var k, load := s.refreshes[r].key, s.refreshes[r].phase.load;
    && (k in s.latest ==> s.latest[k] < load.started)
    && (k in s.active && s.active[k] in s.flights ==> load.started < s.flights[s.active[k]].started)
  }

  /** `ev` inserts the load of a refresh out of its turn. */
  ghost predicate OutOfTurn<K, V>(s: State<K, V>, ev: Event<K, V>) {
    WritesBack(s, ev) && !InTurn(s, ev.task)
  }

  lemma SlotsMonoWriteBack<K, V>(w: World<K, V>, s: State<K, V>, r: nat)
    requires Shape(w, s) && SlotsMono(s) && r in s.refreshes && s.refreshes[r].phase.Confirmed? && InTurn(s, r)
    ensures var t := Next(DoWriteBack(s, r)); SlotsMono(t) && Onward(s, t)
  {
    hide Shape;
    Unused(w, s);
    RefreshKnown(w, s, r);
    var t, k0 := Next(DoWriteBack(s, r)), s.refreshes[r].key;
    forall k | k in t.slots ensures SlotMono(t, k) {
      if k != k0 { assert SlotMono(s, k); }
    }
    forall k | k in t.active ensures ActiveMono(t, k) { assert ActiveMono(s, k); }
    forall f | f in t.flights ensures FlightMono(t, f) { assert FlightMono(s, f); }
  }

  lemma MonotoneRefreshStep<K, V>(w: World<K, V>, s: State<K, V>, r: nat, step: RefreshStep)
    requires Shape(w, s) && Monotone(s) && RefreshCan(s, r, step) && !OutOfTurn(s, Refreshing(r, step))
    ensures Monotone(Next(RefreshDo(w, s, r, step)))
  {
    hide Shape, SlotsMono, CallsMono, AnswersMono, CallMono, InTurn;
    RefreshFrame(w, s, r, step);
    var t := Next(RefreshDo(w, s, r, step));
    if step.WriteBack? {
      hide Onward;
      SlotsMonoWriteBack(w, s, r);
    } else {
      hide RefreshDo;
      SlotsMonoShrink(s, t);
    }
    hide RefreshDo, RefreshCan;
    CallsMonoKept(s, t);
    AnswersMonoKept(s, t);
  }

  lemma MonotoneBegin<K, V>(w: World<K, V>, s: State<K, V>, k: K)
    requires Shape(w, s) && Monotone(s)
    ensures Monotone(Next(DoBegin(s, k)))
  {
    var t := Next(DoBegin(s, k));
    Unused(w, s);
    StampsKnown(w, s);
    forall i | 0 <= i < |t.answers| ensures Below(t, t.answers[i], s.stamp) {
      assert AnswerMono(s, s.answers[i]);
    }
    hide Shape, SlotsMono, CallsMono, AnswersMono;
    SlotsMonoShrink(s, t);
    CallsMonoKept(s, t);
    AnswersMonoKept(s, t);
  }

  lemma MonotoneElsewhere<K, V>(w: World<K, V>, s: State<K, V>, ev: Event<K, V>)
    requires Shape(w, s) && Monotone(s) && Enabled(s, ev) && !ev.Advance? && !ev.Refreshing? && !ev.Begin?
    ensures Monotone(Apply(w, s, ev))
  {
    hide Shape, SlotsMono, CallsMono, AnswersMono, CallMono, CallDo, RefreshDo, CallCan, RefreshCan;
    var t := Apply(w, s, ev);
    SlotsMonoShrink(s, t);
    CallsMonoKept(s, t);
    AnswersMonoKept(s, t);
  }

  lemma MonotoneKept<K, V>(w: World<K, V>, s: State<K, V>, ev: Event<K, V>)
    requires Shape(w, s) && Monotone(s) && Enabled(s, ev) && !OutOfTurn(s, ev)
    ensures Monotone(Apply(w, s, ev))
  {
    hide Shape, Monotone, OutOfTurn, CallDo, RefreshDo, CallCan, RefreshCan;
    match ev
    case Begin(k) => MonotoneBegin(w, s, k);
    case Advance(g, step) => MonotoneCallStep(w, s, g, step);
    case Refreshing(r, step) => MonotoneRefreshStep(w, s, r, step);
    case _ => MonotoneElsewhere(w, s, ev);
  }

  // ---- The succession of a slot. ----

  /** What `k`'s slot received last is no older; with nothing received, the slot is as it was or empty. */
  ghost predicate Succeeds<K, V>(s: State<K, V>, t: State<K, V>, k: K) {
    && (k in s.latest ==> k in t.latest && s.latest[k] <= t.latest[k])
    && (k in t.slots && k in s.latest && k in t.latest && s.latest[k] == t.latest[k] ==>
          k in s.slots && t.slots[k] == s.slots[k])
  }

  lemma SucceedsCallStep<K, V>(w: World<K, V>, s: State<K, V>, g: nat, step: CallStep, k: K)
    requires Shape(w, s) && Monotone(s) && CallCan(s, g, step)
    ensures Succeeds(s, Next(CallDo(w, s, g, step)), k)
  {
    hide Shape, Monotone;
    if step.Insert? {
      InsertIsNewer(w, s, g);
    } else {
      SlotsKnown(w, s, k);
      LoadFrame(w, s, g, step);
      hide CallDo, CallCan;
    }
  }

  lemma InsertIsNewer<K, V>(w: World<K, V>, s: State<K, V>, g: nat)
    requires Shape(w, s) && Monotone(s) && CallCan(s, g, Insert)
    ensures var k := s.flights[g].key; k in s.latest ==> s.latest[k] < s.entries[s.flights[g].phase.entry].started
    ensures forall k :: k in s.slots ==> k in s.latest
  {
    SlotsMonoInsert(w, s, g);
    assert forall k :: k in s.slots ==> SlotMono(s, k);
  }

  lemma SlotsKnown<K, V>(w: World<K, V>, s: State<K, V>, k: K)
    requires Monotone(s)
    ensures k in s.slots ==> k in s.latest
  {
    if k in s.slots { assert SlotMono(s, k); }
  }

  lemma SucceedsRefreshStep<K, V>(w: World<K, V>, s: State<K, V>, r: nat, step: RefreshStep, k: K)
    requires Shape(w, s) && Monotone(s) && RefreshCan(s, r, step) && !OutOfTurn(s, Refreshing(r, step))
    ensures Succeeds(s, Next(RefreshDo(w, s, r, step)), k)
  {
    hide Shape, Monotone;
    SlotsKnown(w, s, k);
    if !step.WriteBack? {
      hide RefreshDo, RefreshCan;
      RefreshFrame(w, s, r, step);
    }
  }

  /** An event that puts a new entry into a slot puts one there from a later load. */
  lemma SlotSuccession<K, V>(w: World<K, V>, s: State<K, V>, ev: Event<K, V>, k: K)
    requires Shape(w, s) && Monotone(s) && Enabled(s, ev) && !OutOfTurn(s, ev)
    ensures Succeeds(s, Apply(w, s, ev), k)
  {
    hide Shape, Monotone, OutOfTurn, CallDo, RefreshDo, CallCan, RefreshCan;
    match ev
    case Advance(g, step) => SucceedsCallStep(w, s, g, step, k);
    case Refreshing(r, step) => SucceedsRefreshStep(w, s, r, step, k);
    case _ =>
  }

  /**
  The insert of a refresh that passed its checks keeps the loads of its key in order if and only if
  it comes in its turn: later than the last load the slot received, earlier than any in flight.
  */
  lemma WriteBackKeepsOrderExactlyWhen<K, V>(w: World<K, V>, s: State<K, V>, r: nat)
    requires Shape(w, s) && SlotsMono(s) && r in s.refreshes && s.refreshes[r].phase.Confirmed?
    ensures var t := Next(DoWriteBack(s, r));
            SlotsMono(t) && Succeeds(s, t, s.refreshes[r].key) <==> InTurn(s, r)
  {
    Unused(w, s);
    var t, k := Next(DoWriteBack(s, r)), s.refreshes[r].key;
    assert k in s.slots ==> SlotMono(s, k);
    if InTurn(s, r) {
      SlotsMonoWriteBack(w, s, r);
    } else {
      hide Shape;
      assert SlotsMono(t) && k in t.active ==> ActiveMono(t, k);
    }
  }
}
