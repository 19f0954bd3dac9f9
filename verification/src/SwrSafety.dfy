/**
Invalidation safety. An entry whose load began before an invalidation that covers it stays in its
slot only while the call that inserted it still owes the epoch check that removes it.

Every event keeps that but one: the insert of a refresh whose load an invalidation has overtaken.
The write-back is three calls in the source (compare the epoch, compare the slot, insert) and
nothing is held between them, so such an insert can happen; `SwrRace` has a run in which it does.
*/
module SwrSafety {
  import opened Wrappers
  import opened SwrModel
  import opened SwrInvariants

  /** The entry in `k`'s slot predates the invalidation and is covered by it. */
  ghost predicate Outdated<K, V>(s: State<K, V>, k: K, inv: Invalidation<K, V>)
    requires k in s.slots && s.slots[k] in s.entries
  {
    var en := s.entries[s.slots[k]];
    inv.scope.Covers(k, en.value) && en.started <= inv.at
  }

  /** Call `g` inserted what `k`'s slot holds and is bound to empty the slot. */
  ghost predicate Owes<K, V>(s: State<K, V>, g: nat, k: K)
    requires k in s.slots
  {
    && g in s.calls && s.calls[g].key == k
    && match s.calls[g].pc
       case Holding(eb, e, led) => led && e == s.slots[k] && eb != s.epoch
       case Condemned(e, led) => led && e == s.slots[k]
       case _ => false
  }

  ghost predicate SafeSlot<K, V>(s: State<K, V>, k: K)
    requires k in s.slots
  {
    && s.slots[k] in s.entries
    && forall i :: 0 <= i < |s.done| && Outdated(s, k, s.done[i]) ==> exists g :: Owes(s, g, k)
  }

  ghost predicate Safe<K, V>(s: State<K, V>) {
    forall k :: k in s.slots ==> SafeSlot(s, k)
  }

  /** An invalidation that has taken effect covers `k` holding `v` and postdates a load begun at `started`. */
  ghost predicate Overtaken<K, V>(s: State<K, V>, k: K, v: Option<V>, started: nat) {
    exists i :: 0 <= i < |s.done| && s.done[i].scope.Covers(k, v) && started <= s.done[i].at
  }

  /** `ev` is the insert of a refresh that has passed its checks. */
  ghost predicate WritesBack<K, V>(s: State<K, V>, ev: Event<K, V>) {
    ev.Refreshing? && ev.refreshStep.WriteBack? && ev.task in s.refreshes && s.refreshes[ev.task].phase.Confirmed?
  }

  /** `ev` inserts a load that an invalidation has overtaken. */
  ghost predicate Undoes<K, V>(s: State<K, V>, ev: Event<K, V>) {
    WritesBack(s, ev) &&
    var rf := s.refreshes[ev.task];
    Overtaken(s, rf.key, rf.phase.load.value, rf.phase.load.started)
  }

  // ---- An epoch still current means no invalidation since. ----

  ghost predicate CallCurrent<K, V>(s: State<K, V>, g: nat)
    requires g in s.calls
  {
    match s.calls[g].pc
    case Leading(eb) => g in s.flights && (eb == s.epoch ==> s.lastBump < s.flights[g].started)
    case Holding(eb, e, led) => led ==> e in s.entries && (eb == s.epoch ==> s.lastBump < s.entries[e].started)
    case _ => true
  }

  ghost predicate RefreshCurrent<K, V>(s: State<K, V>, r: nat)
    requires r in s.refreshes
  {
    var rf := s.refreshes[r];
    rf.epochBefore == s.epoch ==>
      match rf.phase
      case Running(started) => s.lastBump < started
      case Loaded(load) => s.lastBump < load.started
      case EpochChecked(load) => s.lastBump < load.started
      case Confirmed(load) => s.lastBump < load.started
      case _ => true
  }

  ghost predicate Current<K, V>(s: State<K, V>) {
    && (forall g :: g in s.calls ==> CallCurrent(s, g))
    && (forall r :: r in s.refreshes ==> RefreshCurrent(s, r))
  }

  lemma CurrentCallStep<K, V>(w: World<K, V>, s: State<K, V>, g: nat, step: CallStep)
    requires Shape(w, s) && Current(s) && CallCan(s, g, step)
    ensures Current(Next(CallDo(w, s, g, step)))
  {
    hide Shape;
    Standing(w, s, g);
    OwnFlights(w, s, g, step);
    Unused(w, s);
    CallFrame(w, s, g, step);
    var t, move := Next(CallDo(w, s, g, step)), StepMove(w, s, g, step);
    CurrentMove(w, s, g, step);
    CurrentSpawn(w, s, g, step);
    hide CallDo, StepMove, CallCan;
    forall h | h in t.calls ensures CallCurrent(t, h) {
      if h != g { assert CallCurrent(s, h); }
    }
  }

  lemma CurrentMove<K, V>(w: World<K, V>, s: State<K, V>, g: nat, step: CallStep)
    requires Shape(w, s) && Current(s) && CallCan(s, g, step)
    ensures var t := Next(CallDo(w, s, g, step)); g in t.calls ==> CallCurrent(t, g)
  {
    hide Shape;
    Standing(w, s, g);
    assert CallCurrent(s, g);
    hide Current;
  }

  lemma CurrentSpawn<K, V>(w: World<K, V>, s: State<K, V>, g: nat, step: CallStep)
    requires Current(s) && CallCan(s, g, step)
    ensures var t := Next(CallDo(w, s, g, step)); forall r :: r in t.refreshes ==> RefreshCurrent(t, r)
  {
    CallFrame(w, s, g, step);
    if !step.Spawn? { hide CallDo, CallCan, StepMove; }
  }

  /** A step of `g` changes no other call's flight, moves no load's start and forgets no entry. */
  lemma OwnFlights<K, V>(w: World<K, V>, s: State<K, V>, g: nat, step: CallStep)
    requires Shape(w, s) && CallCan(s, g, step)
    ensures var t := CallDo(w, s, g, step);
            && (forall f :: f in s.flights && f != g ==> f in t.flights && t.flights[f] == s.flights[f])
            && (g in s.flights ==> g in t.flights && t.flights[g].started == s.flights[g].started)
            && (forall e :: e in s.entries ==> e in t.entries && t.entries[e] == s.entries[e])
  {
    hide Shape;
    Unused(w, s);
    Standing(w, s, g);
  }

  lemma CurrentRefreshStep<K, V>(w: World<K, V>, s: State<K, V>, r: nat, step: RefreshStep)
    requires Shape(w, s) && Current(s) && RefreshCan(s, r, step)
    ensures Current(Next(RefreshDo(w, s, r, step)))
  {
    hide Shape, RefreshDo;
    RefreshFrame(w, s, r, step);
    var t := Next(RefreshDo(w, s, r, step));
    assert RefreshCurrent(s, r);
    StaysCurrent(w, s, r, step);
    forall g | g in t.calls ensures CallCurrent(t, g) {
      assert CallCurrent(s, g);
    }
  }

  lemma StaysCurrent<K, V>(w: World<K, V>, s: State<K, V>, r: nat, step: RefreshStep)
    requires Shape(w, s) && RefreshCan(s, r, step) && RefreshCurrent(s, r)
    ensures var t := Next(RefreshDo(w, s, r, step));
            && (if step.Exit? then t.refreshes == s.refreshes - {r} else r in t.refreshes && RefreshCurrent(t, r))
            && (forall e :: e in s.entries ==> e in t.entries && t.entries[e] == s.entries[e])
  {
    hide Shape;
    BumpKnown(w, s);
    Unused(w, s);
  }

  lemma BumpKnown<K, V>(w: World<K, V>, s: State<K, V>)
    requires Shape(w, s)
    ensures s.lastBump < s.stamp && s.stamp !in s.calls
    ensures forall i :: 0 <= i < |s.done| ==> s.done[i].at <= s.lastBump
    ensures forall i :: i in s.pending ==> i <= s.lastBump
  {
    Unused(w, s);
  }

  lemma CurrentElsewhere<K, V>(w: World<K, V>, s: State<K, V>, ev: Event<K, V>)
    requires Shape(w, s) && Current(s) && Enabled(s, ev) && !ev.Advance? && !ev.Refreshing?
    ensures Current(Apply(w, s, ev))
  {
    hide CallDo, RefreshDo, CallCan, RefreshCan;
    var t := Apply(w, s, ev);
    forall g | g in t.calls ensures CallCurrent(t, g) {
      if g in s.calls { assert CallCurrent(s, g) && CallOk(w, s, g); }
    }
    forall r | r in t.refreshes ensures RefreshCurrent(t, r) {
      assert RefreshCurrent(s, r) && RefreshOk(w, s, r);
    }
  }

  lemma CurrentKept<K, V>(w: World<K, V>, s: State<K, V>, ev: Event<K, V>)
    requires Shape(w, s) && Current(s) && Enabled(s, ev)
    ensures Current(Apply(w, s, ev))
  {
    hide Shape, Current, CallDo, RefreshDo, CallCan, RefreshCan;
    match ev
    case Advance(g, step) => CurrentCallStep(w, s, g, step);
    case Refreshing(r, step) => CurrentRefreshStep(w, s, r, step);
    case _ => CurrentElsewhere(w, s, ev);
  }

  // ---- Safety, step by step. ----

  /** Slots only emptied, calls other than `g` untouched, and what `g` owed is owed still or paid. */
  lemma SafeShrinks<K, V>(s: State<K, V>, t: State<K, V>, g: nat)
    requires Safe(s) && t.done == s.done && t.epoch == s.epoch
    requires forall k :: k in t.slots ==> k in s.slots && t.slots[k] == s.slots[k]
    requires forall e :: e in s.entries ==> e in t.entries && t.entries[e] == s.entries[e]
    requires forall h :: h in s.calls && h != g ==> h in t.calls && t.calls[h] == s.calls[h]
    requires forall k :: k in t.slots && Owes(s, g, k) ==> Owes(t, g, k)
    ensures Safe(t)
  {
    forall k | k in t.slots ensures SafeSlot(t, k) {
      assert SafeSlot(s, k);
      forall i | 0 <= i < |t.done| && Outdated(t, k, t.done[i]) ensures exists h :: Owes(t, h, k) {
        assert Outdated(s, k, s.done[i]);
        var h :| Owes(s, h, k);
        assert Owes(t, h, k);
      }
    }
  }

  lemma SafeInsert<K, V>(w: World<K, V>, s: State<K, V>, g: nat)
    requires Shape(w, s) && Current(s) && Safe(s) && CallCan(s, g, Insert)
    ensures Safe(Next(DoInsert(s, g)))
  {
    hide Shape;
    BumpKnown(w, s);
    Standing(w, s, g);
    assert CallCurrent(s, g);
    var t, k0 := Next(DoInsert(s, g)), s.flights[g].key;
    forall k | k in t.slots ensures SafeSlot(t, k) {
      if k == k0 {
        forall i | 0 <= i < |t.done| && Outdated(t, k, t.done[i]) ensures exists h :: Owes(t, h, k) {
          assert Owes(t, g, k);
        }
      } else {
        assert SafeSlot(s, k);
        forall i | 0 <= i < |t.done| && Outdated(t, k, t.done[i]) ensures exists h :: Owes(t, h, k) {
          assert Outdated(s, k, s.done[i]);
          var h :| Owes(s, h, k);
          assert Owes(t, h, k);
        }
      }
    }
  }

  lemma SafeCallStep<K, V>(w: World<K, V>, s: State<K, V>, g: nat, step: CallStep)
    requires Shape(w, s) && Current(s) && Safe(s) && CallCan(s, g, step)
    ensures Safe(Next(CallDo(w, s, g, step)))
  {
    hide Shape, Current, Safe;
    if step.Insert? {
      SafeInsert(w, s, g);
    } else {
      var t, move := Next(CallDo(w, s, g, step)), StepMove(w, s, g, step);
      CallFrame(w, s, g, step);
      OwnFlights(w, s, g, step);
      LoadFrame(w, s, g, step);
      hide CallDo;
      forall k | k in t.slots && Owes(s, g, k) ensures Owes(t, g, k) {}
      hide StepMove, CallCan;
      SafeShrinks(s, t, g);
    }
  }

  /**
  The insert of a refresh that passed its checks keeps the cache safe if and only if no
  invalidation that has taken effect since its load began covers the value.
  */
  lemma WriteBackIsSafeExactlyWhen<K, V>(w: World<K, V>, s: State<K, V>, r: nat)
    requires Shape(w, s) && Safe(s) && r in s.refreshes && s.refreshes[r].phase.Confirmed?
    ensures var load := s.refreshes[r].phase.load;
            Safe(Next(DoWriteBack(s, r))) <==> !Overtaken(s, s.refreshes[r].key, load.value, load.started)
  {
    hide Shape;
    Unused(w, s);
    HeldAreOld(w, s);
    var t, k0, load := Next(DoWriteBack(s, r)), s.refreshes[r].key, s.refreshes[r].phase.load;
    assert forall g :: !Owes(t, g, k0);
    if Overtaken(s, k0, load.value, load.started) {
      var i :| 0 <= i < |s.done| && s.done[i].scope.Covers(k0, load.value) && load.started <= s.done[i].at;
      assert Outdated(t, k0, t.done[i]);
      assert !SafeSlot(t, k0);
    } else {
      forall k | k in t.slots ensures SafeSlot(t, k) {
        if k != k0 { SafeElsewhere(s, t, k); }
      }
    }
  }

  /** What a slot held before, it holds as safely now. */
  lemma SafeElsewhere<K, V>(s: State<K, V>, t: State<K, V>, k: K)
    requires Safe(s) && k in s.slots && k in t.slots && t.slots[k] == s.slots[k]
    requires t.done == s.done && t.epoch == s.epoch && t.calls == s.calls
    requires forall e :: e in s.entries ==> e in t.entries && t.entries[e] == s.entries[e]
    ensures SafeSlot(t, k)
  {
    assert SafeSlot(s, k);
    forall i | 0 <= i < |t.done| && Outdated(t, k, t.done[i]) ensures exists h :: Owes(t, h, k) {
      assert Outdated(s, k, s.done[i]);
      var h :| Owes(s, h, k);
      assert Owes(t, h, k);
    }
  }

  /** No call holds an entry that does not exist yet. */
  lemma HeldAreOld<K, V>(w: World<K, V>, s: State<K, V>)
    requires Shape(w, s)
    ensures forall g :: g in s.calls ==>
              && (s.calls[g].pc.Holding? ==> s.calls[g].pc.entry < s.stamp)
              && (s.calls[g].pc.Condemned? ==> s.calls[g].pc.entry < s.stamp)
  {
    assert forall g :: g in s.calls ==> CallOk(w, s, g);
  }

  /** A refresh whose epoch is still current has not been overtaken. */
  lemma CurrentIsNotOvertaken<K, V>(w: World<K, V>, s: State<K, V>, r: nat)
    requires Shape(w, s) && Current(s) && r in s.refreshes && s.refreshes[r].phase.Confirmed?
    requires s.refreshes[r].epochBefore == s.epoch
    ensures !Undoes(s, Refreshing(r, WriteBack))
  {
    BumpKnown(w, s);
    assert RefreshCurrent(s, r);
  }

  lemma SafeRefreshStep<K, V>(w: World<K, V>, s: State<K, V>, r: nat, step: RefreshStep)
    requires Shape(w, s) && Safe(s) && RefreshCan(s, r, step) && !step.WriteBack?
    ensures Safe(Next(RefreshDo(w, s, r, step)))
  {
    hide Shape, Safe, RefreshDo, RefreshCan;
    RefreshFrame(w, s, r, step);
    SafeShrinks(s, Next(RefreshDo(w, s, r, step)), s.stamp);
  }

  lemma SafeInvalidateBegin<K, V>(s: State<K, V>, scope: Scope<K, V>)
    requires Safe(s) && (forall g :: g in s.calls && s.calls[g].pc.Holding? ==> s.calls[g].pc.epochBefore <= s.epoch)
    ensures Safe(Next(DoInvalidateBegin(s, scope)))
  {
    var t := Next(DoInvalidateBegin(s, scope));
    forall k | k in t.slots ensures SafeSlot(t, k) {
      assert SafeSlot(s, k);
      forall i | 0 <= i < |t.done| && Outdated(t, k, t.done[i]) ensures exists h :: Owes(t, h, k) {
        assert Outdated(s, k, s.done[i]);
        var h :| Owes(s, h, k);
        assert Owes(t, h, k);
      }
    }
  }

  lemma SafeInvalidateApply<K, V>(s: State<K, V>, id: nat)
    requires Safe(s) && id in s.pending
    ensures Safe(Next(DoInvalidateApply(s, id)))
  {
    var t := Next(DoInvalidateApply(s, id));
    forall k | k in t.slots ensures SafeSlot(t, k) {
      assert SafeSlot(s, k);
      assert k !in Covered(s, s.pending[id]);
      forall i | 0 <= i < |t.done| && Outdated(t, k, t.done[i]) ensures exists h :: Owes(t, h, k) {
        assert i < |s.done| && Outdated(s, k, s.done[i]);
        var h :| Owes(s, h, k);
        assert Owes(t, h, k);
      }
    }
  }

  /** Every event keeps the cache safe, exactly except the insert of an overtaken load. */
  lemma SafeExactlyWhen<K, V>(w: World<K, V>, s: State<K, V>, ev: Event<K, V>)
    requires Shape(w, s) && Current(s) && Safe(s) && Enabled(s, ev)
    ensures Safe(Apply(w, s, ev)) <==> !Undoes(s, ev)
  {
    hide Current, Safe, Overtaken, CallDo, CallCan;
    match ev
    case Advance(g, step) => SafeCallStep(w, s, g, step);
    case Refreshing(r, step) =>
      hide Shape;
      if step.WriteBack? {
        WriteBackIsSafeExactlyWhen(w, s, r);
      } else {
        hide RefreshDo;
        SafeRefreshStep(w, s, r, step);
      }
    case _ =>
      hide RefreshDo, RefreshCan;
      SafeAway(w, s, ev);
  }

  lemma SafeAway<K, V>(w: World<K, V>, s: State<K, V>, ev: Event<K, V>)
    requires Shape(w, s) && Safe(s) && Enabled(s, ev) && !ev.Advance? && !ev.Refreshing?
    ensures Safe(Apply(w, s, ev))
  {
    hide Safe, CallDo, RefreshDo, CallCan, RefreshCan;
    if ev.InvalidateBegin? {
      assert forall g :: g in s.calls ==> CallOk(w, s, g);
      hide Shape, DoInvalidateBegin;
      SafeInvalidateBegin(s, ev.scope);
    } else if ev.InvalidateApply? {
      hide Shape, DoInvalidateApply;
      SafeInvalidateApply(s, ev.id);
    } else {
      Unused(w, s);
      hide Shape;
      SafeShrinks(s, Apply(w, s, ev), s.stamp);
    }
  }
}
