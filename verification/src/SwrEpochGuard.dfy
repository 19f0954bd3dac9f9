/**
What the epoch comparison of a refresh is worth. It narrows the time in which an invalidation can
be undone to that between the comparison and the insert, whenever the load began; and in a run in
which the epoch did not move there, none is undone.
*/
module SwrEpochGuard {
  import opened Wrappers
  import opened SwrModel
  import opened SwrInvariants
  import opened SwrFlags
  import opened SwrAccounting
  import opened SwrSafety
  import opened SwrMonotone
  import SwrFreshReads
  import opened SwrRuns
  import opened SwrHistory

  /** Between events `l` and `n` an invalidation covering `k` holding `v` began and took effect. */
  ghost predicate InvalidatedBetween<K, V>(events: seq<Event<K, V>>, l: nat, n: nat, k: K, v: Option<V>)
    requires n <= |events|
  {
    exists a, b :: l < a < b < n && events[b] == InvalidateApply(a + 1)
                   && events[a].InvalidateBegin? && events[a].scope.Covers(k, v)
  }

  /** Event `n` inserts a load although its value was invalidated since the refresh compared epochs. */
  ghost predicate InsertsInvalidated<K, V>(states: seq<State<K, V>>, events: seq<Event<K, V>>, n: nat)
    requires n < |events| && n < |states|
  {
    WritesBack(states[n], events[n]) &&
    var rf := states[n].refreshes[events[n].task];
    exists l :: 0 <= l < n && events[l] == Refreshing(events[n].task, RecheckEpoch)
                && InvalidatedBetween(events, l, n, rf.key, rf.phase.load.value)
  }

  /** The comparison that let the refresh on: its load began before, and after every invalidation so far. */
  lemma EpochCompared<K, V>(w: World<K, V>, states: seq<State<K, V>>, events: seq<Event<K, V>>, n: nat)
      returns (l: nat)
    requires IsRun(w, states, events) && n < |events| && WritesBack(states[n], events[n])
    ensures l < n && events[l] == Refreshing(events[n].task, RecheckEpoch)
    ensures var started := states[n].refreshes[events[n].task].phase.load.started;
            started <= l && states[l].lastBump < started
    ensures forall i :: 0 <= i < n && events[i] == Refreshing(events[n].task, RecheckEpoch) ==> i == l
  {
    hide Apply, Enabled;
    var r := events[n].task;
    var m := CameFrom(w, states, events, n, r);
    l := CameFrom(w, states, events, m, r);
    LoadedInTime(w, states, events, l, r);
    forall i | 0 <= i < n && events[i] == Refreshing(r, RecheckEpoch) ensures i == l {
      if i < l {
        StepsInOrder(w, states, events, i, l, r, RecheckEpoch, RecheckEpoch);
      } else if l < i {
        StepsInOrder(w, states, events, l, i, r, RecheckEpoch, RecheckEpoch);
      }
    }
  }

  lemma LoadedInTime<K, V>(w: World<K, V>, states: seq<State<K, V>>, events: seq<Event<K, V>>, l: nat, r: nat)
    requires IsRun(w, states, events) && l < |states| && r in states[l].refreshes
    requires states[l].refreshes[r].phase.Loaded? && states[l].refreshes[r].epochBefore == states[l].epoch
    ensures var started := states[l].refreshes[r].phase.load.started; started <= l && states[l].lastBump < started
  {
    EveryState(w, states, events, l);
    StampsCount(w, states, events, l);
    hide IsRun, Flags, Accounts;
    RefreshKnown(w, states[l], r);
    assert RefreshCurrent(states[l], r);
  }

  /** An insert undoes an invalidation exactly when a covering one began and ended since the epoch comparison. */
  lemma UndoesExactlyWhen<K, V>(w: World<K, V>, states: seq<State<K, V>>, events: seq<Event<K, V>>, n: nat)
    requires IsRun(w, states, events) && n < |events|
    ensures Undoes(states[n], events[n]) <==> InsertsInvalidated(states, events, n)
  {
    assert |states| == |events| + 1;
    hide Apply, Enabled, IsRun;
    var s, ev := states[n], events[n];
    if WritesBack(s, ev) {
      var rf := s.refreshes[ev.task];
      var l := EpochCompared(w, states, events, n);
      if Undoes(s, ev) { UndoneSince(w, states, events, n, l); }
      if InsertsInvalidated(states, events, n) {
        assert InvalidatedBetween(events, l, n, rf.key, rf.phase.load.value);
        var a, b :| l < a < b < n && events[b] == InvalidateApply(a + 1)
          && events[a].InvalidateBegin? && events[a].scope.Covers(rf.key, rf.phase.load.value);
        HappenedIsDone(w, states, events, n, a, b);
      }
    }
  }

  lemma UndoneSince<K, V>(w: World<K, V>, states: seq<State<K, V>>, events: seq<Event<K, V>>, n: nat, l: nat)
    requires IsRun(w, states, events) && n < |events| && Undoes(states[n], events[n])
    requires l < n && events[l] == Refreshing(events[n].task, RecheckEpoch)
    requires states[l].lastBump < states[n].refreshes[events[n].task].phase.load.started
    ensures var rf := states[n].refreshes[events[n].task];
            InvalidatedBetween(events, l, n, rf.key, rf.phase.load.value)
  {
    assert |states| == |events| + 1;
    hide Apply, Enabled, IsRun;
    var s, rf := states[n], states[n].refreshes[events[n].task];
    var i :| 0 <= i < |s.done| && s.done[i].scope.Covers(rf.key, rf.phase.load.value)
      && rf.phase.load.started <= s.done[i].at;
    var a, b := DoneHappened(w, states, events, n, s.done[i]);
    if a < l { BeginBumps(w, states, events, a, l); }
  }

  /** No refresh inserted a load whose value was invalidated since it compared epochs. */
  ghost predicate NoneInvalidated<K, V>(states: seq<State<K, V>>, events: seq<Event<K, V>>, n: nat)
    requires n <= |events| && n <= |states|
  {
    forall i :: 0 <= i < n ==> !InsertsInvalidated(states, events, i)
  }

  lemma UndoneByEvents<K, V>(w: World<K, V>, states: seq<State<K, V>>, events: seq<Event<K, V>>, n: nat)
    requires IsRun(w, states, events) && n < |states|
    ensures NoneInvalidated(states, events, n) <==> NothingUndone(states, events, n)
  {
    assert |states| == |events| + 1;
    hide IsRun, Undoes, InsertsInvalidated;
    forall i | 0 <= i < n ensures Undoes(states[i], events[i]) <==> InsertsInvalidated(states, events, i) {
      UndoesExactlyWhen(w, states, events, i);
    }
  }

  /**
  When a run is safe, told by its events: if and only if no refresh inserted a load although an
  invalidation covering the value began and took effect since the refresh compared epochs.
  */
  lemma SafetyByEvents<K, V>(w: World<K, V>, states: seq<State<K, V>>, events: seq<Event<K, V>>, n: nat)
    requires IsRun(w, states, events) && n < |states|
    ensures (forall i :: 0 <= i <= n ==> Safe(states[i])) <==> NoneInvalidated(states, events, n)
  {
    hide IsRun, Safe, NothingUndone, NoneInvalidated;
    SafetyExactlyWhen(w, states, events, n);
    UndoneByEvents(w, states, events, n);
  }

  /** Every refresh that inserted among the first `n` events found its epoch still current then. */
  ghost predicate EpochsHeld<K, V>(states: seq<State<K, V>>, events: seq<Event<K, V>>, n: nat)
    requires n <= |events| && n <= |states|
  {
    forall i :: 0 <= i < n && WritesBack(states[i], events[i]) ==>
      states[i].refreshes[events[i].task].epochBefore == states[i].epoch
  }

  /** If the comparison and the insert were one step, invalidation safety would hold of every run. */
  lemma HeldEpochsAreSafe<K, V>(w: World<K, V>, states: seq<State<K, V>>, events: seq<Event<K, V>>, n: nat)
    requires IsRun(w, states, events) && n < |states| && EpochsHeld(states, events, n)
    ensures NoneInvalidated(states, events, n) && forall i :: 0 <= i <= n ==> Safe(states[i])
  {
    assert |states| == |events| + 1;
    hide IsRun, Safe, Undoes, NoneInvalidated, Shape, Flags, Accounts, Current;
    forall i | 0 <= i < n ensures !Undoes(states[i], events[i]) {
      if WritesBack(states[i], events[i]) {
        EveryState(w, states, events, i);
        CurrentIsNotOvertaken(w, states[i], events[i].task);
      } else {
        NotUndone(states[i], events[i]);
      }
    }
    UndoneByEvents(w, states, events, n);
    SafetyExactlyWhen(w, states, events, n);
  }

  lemma NotUndone<K, V>(s: State<K, V>, ev: Event<K, V>)
    requires !WritesBack(s, ev)
    ensures !Undoes(s, ev)
  {
  }

  /**
  Invalidation safety: while no insert undid one, an entry loaded before an invalidation that covers
  it is in its slot only while the call that inserted it is bound to remove it; with no load of the
  key pending, the slot is empty or holds a load from after every such invalidation.
  */
  lemma InvalidationSafety<K, V>(
      w: World<K, V>, states: seq<State<K, V>>, events: seq<Event<K, V>>, n: nat, k: K, i: nat)
    requires IsRun(w, states, events) && n < |states| && NoneInvalidated(states, events, n)
    requires k in states[n].slots && i < |states[n].done|
    ensures var s := states[n];
            && s.slots[k] in s.entries
            && (Outdated(s, k, s.done[i]) ==> exists g :: Owes(s, g, k))
            && (!LoadPending(s, k) ==> !Outdated(s, k, s.done[i]))
  {
    hide IsRun, NothingUndone, NoneInvalidated, Owes, Outdated, LoadPending;
    UndoneByEvents(w, states, events, n);
    SafeUnlessUndone(w, states, events, n, k, i);
  }

  /**
  Read your invalidation: if at state `m` the invalidation is done and no load of `k` is pending,
  every answer on `k` of a call begun from then on is a load from after the invalidation or a value
  it does not cover, while no insert undid an invalidation.
  */
  lemma ReadsAfterInvalidation<K, V>(
      w: World<K, V>, states: seq<State<K, V>>, events: seq<Event<K, V>>, m: nat, n: nat, k: K, i: nat, j: nat)
    requires IsRun(w, states, events) && m <= n < |states| && NoneInvalidated(states, events, n)
    requires i < |states[m].done| && !LoadPending(states[m], k)
    requires j < |states[n].answers|
    requires var a := states[n].answers[j]; a.key == k && states[m].stamp <= a.begun && Given(a.outcome).Some?
    ensures SwrFreshReads.NewEnough(states[n], k, Given(states[n].answers[j].outcome).value, states[m].done[i])
  {
    hide IsRun, NothingUndone, NoneInvalidated, LoadPending;
    UndoneByEvents(w, states, events, n);
    ReadsUnlessUndone(w, states, events, m, n, k, i, j);
  }
}
