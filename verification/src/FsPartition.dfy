/**
How concurrent `delete_prefix` walks divide the work: what they remove is exactly what their
prefixes name, they count each removal once between them, and they come to an end.
*/
module FsPartition {
  import opened Ordering
  import opened FsTree
  import opened FsList
  import opened FsDelete
  import opened FsConcurrentDelete

  // ---- A walk stays under its base. ----

  ghost predicate FrameSound(initial: Entries, base: Place, f: Frame) {
    base <= f.dir && f.dir in initial && f.todo <= Children(initial, f.dir)
  }

  ghost predicate PlaceSound(initial: Entries, base: Place, p: Place) {
    base <= p && p in initial
  }

  /** Past its first look the walk has found its base a file or a directory, and it is at or below it. */
  ghost predicate Sound(initial: Entries, w: Walker) {
    && (forall i :: 0 <= i < |w.stack| ==> FrameSound(initial, w.base, w.stack[i]))
    && (w.act.Stat? || w.act.Unlink? || w.act.Read? ==> PlaceSound(initial, w.base, w.act.place))
    && (!w.act.Resolve? && !w.act.Finished? && !w.act.Abandoned? ==>
          w.base in initial && (initial[w.base].Dir? || initial[w.base].File?))
  }

  lemma SoundKept(initial: Entries, es: Entries, w: Walker, step: Step)
    requires Shrunk(initial, es) && WalkerOk(es, w) && Sound(initial, w) && Can(es, w, step)
    ensures Sound(initial, DoStep(es, w, step))
  {
    hide Children, FrameOk;
    match step
    case Next(n) =>
      assert FrameSound(initial, w.base, Top(w));
      ChildIsAt(initial, Top(w).dir, n);
    case Skip(n) => assert FrameSound(initial, w.base, Top(w));
    case Do =>
      if w.act.Read? {
        forall n | n in Children(es, w.act.place) ensures n in Children(initial, w.act.place) {
          FewerChildren(initial, es, w.act.place, n);
        }
      }
  }

  /** What a step removes, deleting at the walk's base would remove. */
  lemma RemovesItsOwn(initial: Entries, es: Entries, w: Walker, step: Step, q: Place)
    requires Shrunk(initial, es) && WalkerOk(es, w) && Sound(initial, w) && Can(es, w, step)
    requires q in es && q !in Remains(es, w, step)
    ensures q in Doomed(initial, w.base)
  {
    hide Children, FrameOk;
    if w.act.Rmdir? { assert FrameSound(initial, w.base, Top(w)); }
  }

  // ---- Over whole runs. ----

  ghost predicate AllSound(initial: Entries, s: State) {
    forall i :: 0 <= i < |s.walkers| ==> Sound(initial, s.walkers[i])
  }

  lemma {:induction false} EverySound(initial: Entries, states: seq<State>, events: seq<Event>, n: nat)
    requires IsRun(initial, states, events) && n < |states|
    ensures AllSound(initial, states[n])
  {
    hide Sound, WalkerOk, WellFormed, Private, Can, DoStep, Remains;
    if n == 0 {
    } else {
      EverySound(initial, states, events, n - 1);
      EveryState(initial, states, events, n - 1);
      var s, ev := states[n - 1], events[n - 1];
      match ev
      case Begin(base) => NewIsSound(initial, base);
      case Cancel(i) => CancelIsSound(initial, s.walkers[i]);
      case On(i, step) => SoundKept(initial, s.entries, s.walkers[i], step);
    }
  }

  lemma NewIsSound(initial: Entries, base: Place)
    ensures Sound(initial, NewWalker(base))
  {
  }

  lemma CancelIsSound(initial: Entries, w: Walker)
    requires Sound(initial, w)
    ensures Sound(initial, w.(cancelled := true))
  {
  }

  /** Everything that one of the walks was asked to delete. */
  ghost function AllDoomed(initial: Entries, walkers: seq<Walker>): set<Place> {
    set q | q in initial && AskedFor(initial, walkers, q)
  }

  ghost predicate AskedFor(initial: Entries, walkers: seq<Walker>, q: Place) {
    exists i :: 0 <= i < |walkers| && q in Doomed(initial, walkers[i].base)
  }

  /** What no walk was asked to delete stays. */
  lemma {:induction false} OthersStay(initial: Entries, states: seq<State>, events: seq<Event>, n: nat, q: Place)
    requires IsRun(initial, states, events) && n < |states|
    requires q in initial && q !in AllDoomed(initial, states[n].walkers)
    ensures q in states[n].entries
  {
    hide Sound, WalkerOk, WellFormed, Private, Can, DoStep, Remains, Doomed;
    if n == 0 {
    } else {
      var s, t, ev := states[n - 1], states[n], events[n - 1];
      assert t == Apply(s, ev);
      BasesStay(s, ev);
      assert !AskedFor(initial, t.walkers, q);
      assert !AskedFor(initial, s.walkers, q) by {
        forall i | 0 <= i < |s.walkers| ensures q !in Doomed(initial, s.walkers[i].base) {
          assert t.walkers[i].base == s.walkers[i].base;
        }
      }
      OthersStay(initial, states, events, n - 1, q);
      if ev.On? && q !in t.entries {
        EveryState(initial, states, events, n - 1);
        EverySound(initial, states, events, n - 1);
        RemovesItsOwn(initial, s.entries, s.walkers[ev.walker], ev.step, q);
      }
    }
  }

  lemma BasesStay(s: State, ev: Event)
    requires Enabled(s, ev)
    ensures var t := Apply(s, ev);
            |s.walkers| <= |t.walkers| && forall i :: 0 <= i < |s.walkers| ==> t.walkers[i].base == s.walkers[i].base
  {
    hide Children;
  }

  /** What is left of it, deleting at the same base would still remove. */
  lemma StillDoomed(initial: Entries, es: Entries, base: Place, q: Place)
    requires WellFormed(es) && Shrunk(initial, es) && q in Doomed(initial, base) && q in es
    ensures q in Doomed(es, base)
  {
    if base != [] && base != q {
      assert q[..|base|] == base;
      AboveIsDirectory(es, q, |base|);
    }
  }

  lemma LeavesGone(initial: Entries, now: Entries)
    requires Shrunk(initial, now)
    ensures |Leaves(initial, initial.Keys)| ==
            |Leaves(now, now.Keys)| + |Leaves(initial, initial.Keys - now.Keys)|
  {
    LeavesOfBoth(initial, now.Keys, initial.Keys - now.Keys);
    assert now.Keys + (initial.Keys - now.Keys) == initial.Keys;
    assert Leaves(initial, now.Keys) == Leaves(now, now.Keys);
  }

  /**
  In every interleaving, walks dropped at any moment included, no walk fails; nothing goes but what
  some walk was asked to delete; the counts of the walks add up to the non-directories that are
  gone, each counted once; and once a walk has finished, nothing it was asked to delete is left.
  */
  lemma WalksPartitionTheWork(initial: Entries, states: seq<State>, events: seq<Event>, n: nat)
    requires IsRun(initial, states, events) && n < |states|
    ensures var es, walkers := states[n].entries, states[n].walkers;
            && Shrunk(initial, es) && initial.Keys - es.Keys <= AllDoomed(initial, walkers)
            && Total(walkers) == |Leaves(initial, initial.Keys - es.Keys)|
            && (forall i :: 0 <= i < |walkers| ==> !walkers[i].act.Failed?)
            && (forall i :: 0 <= i < |walkers| && walkers[i].act.Finished? ==>
                  Doomed(initial, walkers[i].base) !! es.Keys)
  {
    hide Doomed, WellFormed, Private, FrameOk;
    EveryState(initial, states, events, n);
    var es, walkers := states[n].entries, states[n].walkers;
    LeavesGone(initial, es);
    forall q | q in initial && q !in es ensures q in AllDoomed(initial, walkers) {
      if q !in AllDoomed(initial, walkers) { OthersStay(initial, states, events, n, q); }
    }
    forall i | 0 <= i < |walkers| ensures !walkers[i].act.Failed? { assert WalkerOk(es, walkers[i]); }
    forall i | 0 <= i < |walkers| && walkers[i].act.Finished? ensures Doomed(initial, walkers[i].base) !! es.Keys {
      assert WalkerOk(es, walkers[i]);
      NothingUnderBase(es, walkers[i].base);
      forall q | q in Doomed(initial, walkers[i].base) ensures q !in es {
        if q in es { StillDoomed(initial, es, walkers[i].base, q); }
      }
    }
  }

  ghost predicate AllFinished(s: State) {
    forall i :: 0 <= i < |s.walkers| ==> s.walkers[i].act.Finished?
  }

  /** When all walks have finished, exactly what they were asked to delete is gone and counted. */
  lemma FinishedTogether(initial: Entries, states: seq<State>, events: seq<Event>, n: nat)
    requires IsRun(initial, states, events) && n < |states| && AllFinished(states[n])
    ensures var doomed := AllDoomed(initial, states[n].walkers);
            states[n].entries == initial - doomed && Total(states[n].walkers) == |Leaves(initial, doomed)|
  {
    hide IsRun, Doomed;
    WalksPartitionTheWork(initial, states, events, n);
    var es, walkers := states[n].entries, states[n].walkers;
    var doomed := AllDoomed(initial, walkers);
    forall q | q in doomed ensures q !in es {
      var i :| 0 <= i < |walkers| && q in Doomed(initial, walkers[i].base);
      assert walkers[i].act.Finished?;
    }
    assert initial.Keys - es.Keys == doomed;
  }

  /** Several deletions of one prefix at once do what one does, and their counts add up to its count. */
  lemma OnePrefix(initial: Entries, states: seq<State>, events: seq<Event>, n: nat, b: Place)
    requires IsRun(initial, states, events) && n < |states| && AllFinished(states[n])
    requires states[n].walkers != [] && forall i :: 0 <= i < |states[n].walkers| ==> states[n].walkers[i].base == b
    ensures states[n].entries == initial - Doomed(initial, b)
    ensures Total(states[n].walkers) == |Leaves(initial, Doomed(initial, b))|
  {
    FinishedTogether(initial, states, events, n);
    var walkers := states[n].walkers;
    assert walkers[0].base == b;
    assert AllDoomed(initial, walkers) == Doomed(initial, b);
  }

  // ---- The walks come to an end. ----

  /** What a frame may still cost: five steps for each entry below what is to be read, and its own end. */
  ghost function FrameRank(initial: Entries, f: Frame): nat {
    5 * |Seen(initial, f.dir, f.todo)| + 2
  }

  ghost function StackRank(initial: Entries, stack: seq<Frame>): nat {
    if stack == [] then 0 else StackRank(initial, stack[..|stack| - 1]) + FrameRank(initial, stack[|stack| - 1])
  }

  ghost function ActRank(initial: Entries, act: Act): nat {
    match act
    case Resolve(p) => 5 * |Subtree(initial, p)| + 1
    case Stat(p) => 5 * |Subtree(initial, p)|
    case Unlink(_) => 2
    case Read(p) => if p in initial then assert p in Subtree(initial, p); 5 * |Subtree(initial, p)| - 1 else 0
    case Loop => 1
    case _ => 0
  }

  ghost function Rank(initial: Entries, w: Walker): nat {
    StackRank(initial, w.stack) + ActRank(initial, w.act) + (if w.cancelled then 0 else 1)
  }

  lemma NotEmpty(initial: Entries, p: Place)
    requires p in initial
    ensures |Subtree(initial, p)| >= 1
  {
    assert p in Subtree(initial, p);
  }

  /** Taking a name off the innermost list pays for its subtree. */
  lemma ListDrops(initial: Entries, w: Walker, n: Name)
    requires w.stack != [] && n in Top(w).todo
    ensures StackRank(initial, SetTop(w, Top(w).todo - {n})) + 5 * |Subtree(initial, Top(w).dir + [n])|
            == StackRank(initial, w.stack)
  {
    var dir, rest := Top(w).dir, Top(w).todo - {n};
    SeenMore(initial, dir, rest, n);
    assert rest + {n} == Top(w).todo;
    var stack := SetTop(w, rest);
    assert stack[..|stack| - 1] == w.stack[..|stack| - 1];
  }

  lemma ReadsLess(initial: Entries, es: Entries, p: Place)
    requires Shrunk(initial, es) && p in initial
    ensures |Seen(initial, p, Children(es, p))| < |Subtree(initial, p)|
  {
    assert p in Subtree(initial, p) && p !in Seen(initial, p, Children(es, p));
    SmallerSet(Seen(initial, p, Children(es, p)), Subtree(initial, p));
  }

  /** A directory that is read costs less than its subtree was worth. */
  lemma ReadDrops(initial: Entries, es: Entries, stack: seq<Frame>, p: Place)
    requires Shrunk(initial, es) && p in initial
    ensures StackRank(initial, stack + [Frame(p, Children(es, p))]) + 1 <
            StackRank(initial, stack) + ActRank(initial, Read(p))
  {
    ReadsLess(initial, es, p);
    hide Children, Seen, Subtree, Shrunk;
    var pushed := stack + [Frame(p, Children(es, p))];
    assert pushed[..|stack|] == stack;
  }

  lemma RankDrops(initial: Entries, es: Entries, w: Walker, step: Step)
    requires Shrunk(initial, es) && WalkerOk(es, w) && Sound(initial, w) && Can(es, w, step)
    ensures Rank(initial, DoStep(es, w, step)) < Rank(initial, w)
  {
    hide Children, FrameOk, Seen, Subtree;
    match step
    case Next(n) =>
      ListDrops(initial, w, n);
      hide StackRank;
    case Skip(n) =>
      assert FrameSound(initial, w.base, Top(w));
      ChildIsAt(initial, Top(w).dir, n);
      NotEmpty(initial, Top(w).dir + [n]);
      ListDrops(initial, w, n);
      hide StackRank;
    case Do => ActDrops(initial, es, w);
  }

  lemma ActDrops(initial: Entries, es: Entries, w: Walker)
    requires Shrunk(initial, es) && WalkerOk(es, w) && Sound(initial, w) && Can(es, w, Do)
    ensures Rank(initial, DoStep(es, w, Do)) < Rank(initial, w)
  {
    hide Children, FrameOk, FrameRank, Subtree;
    if w.act.Resolve? || w.act.Stat? || w.act.Unlink? || w.act.Read? {
      VisitDrops(initial, es, w);
    } else {
      AtLeastTwo(initial, Top(w));
    }
  }

  lemma VisitDrops(initial: Entries, es: Entries, w: Walker)
    requires Shrunk(initial, es) && WalkerOk(es, w) && Sound(initial, w) && Can(es, w, Do)
    requires w.act.Resolve? || w.act.Stat? || w.act.Unlink? || w.act.Read?
    ensures Rank(initial, DoStep(es, w, Do)) < Rank(initial, w)
  {
    hide Children, FrameOk, StackRank, Subtree;
    NoFrames(initial);
    if w.act.place in initial { NotEmpty(initial, w.act.place); }
    if w.act.Read? { ReadDrops(initial, es, w.stack, w.act.place); }
  }

  lemma NoFrames(initial: Entries)
    ensures StackRank(initial, []) == 0
  {
  }

  lemma AtLeastTwo(initial: Entries, f: Frame)
    ensures FrameRank(initial, f) >= 2
  {
  }

  ghost function Ranks(initial: Entries, walkers: seq<Walker>): nat {
    if walkers == [] then 0
    else Ranks(initial, walkers[..|walkers| - 1]) + Rank(initial, walkers[|walkers| - 1])
  }

  lemma {:induction false} RanksAfter(initial: Entries, walkers: seq<Walker>, i: nat, w: Walker)
    requires i < |walkers|
    ensures Ranks(initial, walkers[i := w]) == Ranks(initial, walkers) - Rank(initial, walkers[i]) + Rank(initial, w)
  {
    hide Rank;
    var n := |walkers| - 1;
    if i < n {
      RanksAfter(initial, walkers[..n], i, w);
      assert walkers[i := w][..n] == walkers[..n][i := w];
    } else {
      assert walkers[i := w][..n] == walkers[..n];
    }
  }

  lemma StepIsPaid(initial: Entries, es: Entries, walkers: seq<Walker>, i: nat, step: Step)
    requires i < |walkers| && Shrunk(initial, es) && WalkerOk(es, walkers[i]) && Sound(initial, walkers[i])
    requires Can(es, walkers[i], step)
    ensures Ranks(initial, walkers[i := DoStep(es, walkers[i], step)]) < Ranks(initial, walkers)
  {
    hide Sound, WalkerOk, Can, DoStep, Rank, Ranks;
    RankDrops(initial, es, walkers[i], step);
    RanksAfter(initial, walkers, i, DoStep(es, walkers[i], step));
  }

  lemma CancelIsPaid(initial: Entries, walkers: seq<Walker>, i: nat)
    requires i < |walkers| && !walkers[i].cancelled
    ensures Ranks(initial, walkers[i := walkers[i].(cancelled := true)]) < Ranks(initial, walkers)
  {
    hide Rank, Ranks;
    CancelDrops(initial, walkers[i]);
    RanksAfter(initial, walkers, i, walkers[i].(cancelled := true));
  }

  /** A bound on what is left to do: between two states with no new walk begun, every event is paid for. */
  lemma {:induction false} StepsAreBounded(
      initial: Entries, states: seq<State>, events: seq<Event>, m: nat, n: nat)
    requires IsRun(initial, states, events) && m <= n < |states|
    requires forall i :: m <= i < n ==> !events[i].Begin?
    ensures n - m + Ranks(initial, states[n].walkers) <= Ranks(initial, states[m].walkers)
  {
    hide Sound, WalkerOk, WellFormed, Private, Can, DoStep, Remains, Ranks, Barred;
    if m == n {
    } else {
      StepsAreBounded(initial, states, events, m, n - 1);
      EveryState(initial, states, events, n - 1);
      EverySound(initial, states, events, n - 1);
      var s, ev := states[n - 1], events[n - 1];
      assert !ev.Begin? && Enabled(s, ev) && states[n] == Apply(s, ev);
      if ev.On? {
        StepIsPaid(initial, s.entries, s.walkers, ev.walker, ev.step);
      } else {
        CancelIsPaid(initial, s.walkers, ev.walker);
      }
    }
  }

  lemma CancelDrops(initial: Entries, w: Walker)
    requires !w.cancelled
    ensures Rank(initial, w.(cancelled := true)) < Rank(initial, w)
  {
  }

  /** A walk that has not finished or seen its flag can always go on, whatever the others have done. */
  lemma NeverStuck(initial: Entries, states: seq<State>, events: seq<Event>, n: nat, i: nat)
    requires IsRun(initial, states, events) && n < |states| && i < |states[n].walkers|
    ensures states[n].walkers[i].act.Finished? || states[n].walkers[i].act.Abandoned? <==>
            !exists step :: Enabled(states[n], On(i, step))
  {
    hide FrameOk, Children, WellFormed, Private;
    EveryState(initial, states, events, n);
    var s := states[n];
    var w := s.walkers[i];
    assert WalkerOk(s.entries, w);
    if w.act.Loop? && Top(w).todo != {} {
      var name :| name in Top(w).todo;
      assert Enabled(s, On(i, Step.Next(name)));
    } else if !w.act.Finished? && !w.act.Abandoned? {
      assert Enabled(s, On(i, Do));
    }
  }

  // ---- Dropped calls. ----

  /** Event `j` is a step of walk `i` that removed an entry. */
  ghost predicate RemovedBy(states: seq<State>, events: seq<Event>, i: nat, j: nat)
    requires j < |events| && j + 1 < |states|
  {
    events[j].On? && events[j].walker == i && states[j + 1].entries != states[j].entries
  }

  /** How many entries walk `i` removed between states `m` and `n`. */
  ghost function Removals(states: seq<State>, events: seq<Event>, i: nat, m: nat, n: nat): nat
    requires m <= n <= |events| && n < |states|
    decreases n
  {
    if m == n then 0
    else Removals(states, events, i, m, n - 1) + (if RemovedBy(states, events, i, n - 1) then 1 else 0)
  }

  /** Whether a walk whose flag is set still has a removal under way. */
  function Committed(w: Walker): nat {
    if w.act.Unlink? || w.act.Rmdir? then 1 else 0
  }

  lemma CancelledStep(es: Entries, w: Walker, step: Step)
    requires WalkerOk(es, w) && Can(es, w, step) && w.cancelled
    ensures DoStep(es, w, step).cancelled
    ensures (if Remains(es, w, step) != es then 1 else 0) + Committed(DoStep(es, w, step)) <= Committed(w)
  {
    hide FrameOk, Children;
  }

  /** A dropped call stops: from the moment its flag is set, its walk removes at most one entry more. */
  lemma {:induction false} DroppedCallStops(
      initial: Entries, states: seq<State>, events: seq<Event>, m: nat, n: nat, i: nat)
    requires IsRun(initial, states, events) && m <= n < |states|
    requires i < |states[m].walkers| && states[m].walkers[i].cancelled
    ensures i < |states[n].walkers| && states[n].walkers[i].cancelled
    ensures Removals(states, events, i, m, n) + Committed(states[n].walkers[i]) <= Committed(states[m].walkers[i]) <= 1
  {
    hide WalkerOk, WellFormed, Private, Can, DoStep, Remains, Committed;
    CommittedOnce(states[m].walkers[i]);
    if m == n {
    } else {
      DroppedCallStops(initial, states, events, m, n - 1, i);
      EveryState(initial, states, events, n - 1);
      var s, ev := states[n - 1], events[n - 1];
      assert Enabled(s, ev) && states[n] == Apply(s, ev);
      if ev.On? && ev.walker == i { CancelledStep(s.entries, s.walkers[i], ev.step); }
    }
  }

  lemma CommittedOnce(w: Walker)
    ensures Committed(w) <= 1
  {
  }

  /** What has been removed stays removed. */
  lemma {:induction false} GoneForGood(
      initial: Entries, states: seq<State>, events: seq<Event>, m: nat, n: nat, q: Place)
    requires IsRun(initial, states, events) && m <= n < |states| && q !in states[m].entries
    ensures q !in states[n].entries
  {
    hide WellFormed, Private, Can, DoStep, Remains, Barred;
    if m == n {
    } else {
      GoneForGood(initial, states, events, m, n - 1, q);
      var s, ev := states[n - 1], events[n - 1];
      assert Enabled(s, ev) && states[n] == Apply(s, ev);
      if ev.On? { NothingAppears(s.entries, s.walkers[ev.walker], ev.step, q); }
    }
  }

  lemma NothingAppears(es: Entries, w: Walker, step: Step, q: Place)
    requires Can(es, w, step) && q !in es
    ensures q !in Remains(es, w, step)
  {
  }
}
