/**
Any number of `delete_prefix` walks over one tree at once, no put under way. Each `lstat`,
`read_dir`, `remove_file` and `remove_dir` is one step, so any of them may find that another walk
was there first. A directory's entries are read as the walk goes: one that vanished meanwhile may
or may not still be reported. A call may be dropped at any moment, which sets its walk's flag; the
walk looks at the flag with the `lstat` of each entry, before the removal of a file it was asked
for, and after a directory's entries.
*/
module FsConcurrentDelete {
  import opened Wrappers
  import opened Ordering
  import opened FsTree
  import opened FsList
  import opened FsDelete

  /** A directory being emptied and the entries still to be read. */
  datatype Frame = Frame(dir: Place, todo: set<Name>)

  datatype Act =
    | Resolve(place: Place)
    | Stat(place: Place)
    | Unlink(place: Place)
    | Read(place: Place)
    | Loop
    | Rmdir
    | Finished
    | Abandoned
    | Failed

  /**
  A walk: the prefix it was asked to delete, the directories it is inside of, what it does next, how
  many entries it removed and counted, and whether its caller is gone.
  */
  datatype Walker = Walker(base: Place, stack: seq<Frame>, act: Act, count: nat, cancelled: bool)

  datatype State = State(entries: Entries, walkers: seq<Walker>)

  datatype Step = Do | Next(name: Name) | Skip(name: Name)

  datatype Event = Begin(base: Place) | Cancel(walker: nat) | On(walker: nat, step: Step)

  function NewWalker(base: Place): Walker {
    Walker(base, [], Resolve(base), 0, false)
  }

  function Top(w: Walker): Frame
    requires w.stack != []
  {
    w.stack[|w.stack| - 1]
  }

  function SetTop(w: Walker, todo: set<Name>): seq<Frame>
    requires w.stack != []
  {
    w.stack[|w.stack| - 1 := Frame(Top(w).dir, todo)]
  }

  predicate Can(es: Entries, w: Walker, step: Step) {
    match step
    case Do =>
      || w.act.Resolve? || w.act.Stat? || w.act.Unlink? || w.act.Read?
      || (w.act.Loop? && w.stack != [] && Top(w).todo == {}) || (w.act.Rmdir? && w.stack != [])
    case Next(n) => w.act.Loop? && w.stack != [] && n in Top(w).todo
    case Skip(n) => w.act.Loop? && w.stack != [] && n in Top(w).todo && Top(w).dir + [n] !in es
  }

  /** One call of the recursion is over. */
  function Return(stack: seq<Frame>): Act {
    if stack == [] then Finished else Loop
  }

  /** The walk saw its flag and unwinds. */
  function Abandon(w: Walker): Walker {
    w.(stack := [], act := Abandoned)
  }

  /** What a step does to the tree. */
  function Remains(es: Entries, w: Walker, step: Step): Entries
    requires Can(es, w, step)
  {
    if step.Do? && w.act.Unlink? then (if w.act.place in es && !es[w.act.place].Dir? then es - {w.act.place} else es)
    else if step.Do? && w.act.Rmdir? && Children(es, Top(w).dir) == {} then es - {Top(w).dir}
    else es
  }

  /** What the prefix names: nothing to delete, a file, a directory, or the root, which stays. */
  function DoResolve(es: Entries, w: Walker): Walker
    requires w.act.Resolve?
  {
    var p := w.act.place;
    if w.cancelled && p in es && es[p].File? then Abandon(w)
    else
      w.(act := if p in es && es[p].File? then Unlink(p)
                else if p in es && es[p].Dir? then (if p == [] then Read(p) else Stat(p))
                else Return(w.stack))
  }

  function DoStat(es: Entries, w: Walker): Walker
    requires w.act.Stat?
  {
    var p := w.act.place;
    if w.cancelled then Abandon(w)
    else
      w.(act := if p !in es then Return(w.stack)
                else if es[p].Dir? then (if es[p].ownerOnly then Read(p) else Failed)
                else Unlink(p))
  }

  /** The entry is removed and counted, found gone, or found to be a directory. */
  function DoUnlink(es: Entries, w: Walker): Walker
    requires w.act.Unlink?
  {
    var p := w.act.place;
    if p !in es then w.(act := Return(w.stack))
    else if es[p].Dir? then w.(act := Failed)
    else w.(act := Return(w.stack), count := w.count + 1)
  }

  function DoRead(es: Entries, w: Walker): Walker
    requires w.act.Read?
  {
    var p := w.act.place;
    if p !in es then w.(act := Return(w.stack))
    else if !es[p].Dir? then w.(act := Failed)
    else w.(stack := w.stack + [Frame(p, Children(es, p))], act := Loop)
  }

  /** The loop over a directory's entries is over; the root itself is not removed. */
  function DoEnd(w: Walker): Walker
    requires w.stack != []
  {
    if Top(w).dir == [] then w.(stack := w.stack[..|w.stack| - 1], act := Return(w.stack[..|w.stack| - 1]))
    else if w.cancelled then Abandon(w)
    else w.(act := Rmdir)
  }

  function DoStep(es: Entries, w: Walker, step: Step): Walker
    requires Can(es, w, step)
  {
    match step
    case Next(n) => w.(stack := SetTop(w, Top(w).todo - {n}), act := Stat(Top(w).dir + [n]))
    case Skip(n) => w.(stack := SetTop(w, Top(w).todo - {n}))
    case Do =>
      match w.act
      case Resolve(_) => DoResolve(es, w)
      case Stat(_) => DoStat(es, w)
      case Unlink(_) => DoUnlink(es, w)
      case Read(_) => DoRead(es, w)
      case Loop => DoEnd(w)
      case Rmdir => w.(stack := w.stack[..|w.stack| - 1], act := Return(w.stack[..|w.stack| - 1]))
  }

  /** A call whose path may not be walked is refused and has no walk. */
  ghost predicate Enabled(s: State, ev: Event) {
    match ev
    case Begin(base) => !Barred(s.entries, base)
    case Cancel(i) => i < |s.walkers| && !s.walkers[i].cancelled
    case On(i, step) => i < |s.walkers| && Can(s.entries, s.walkers[i], step)
  }

  ghost function Apply(s: State, ev: Event): State
    requires Enabled(s, ev)
  {
    match ev
    case Begin(base) => s.(walkers := s.walkers + [NewWalker(base)])
    case Cancel(i) => s.(walkers := s.walkers[i := s.walkers[i].(cancelled := true)])
    case On(i, step) =>
      State(Remains(s.entries, s.walkers[i], step), s.walkers[i := DoStep(s.entries, s.walkers[i], step)])
  }

  // ---- What every step keeps. ----

  /** The child of frame `i`'s directory that the walk is busy with. */
  function Busy(w: Walker, i: nat): Option<Name>
    requires i < |w.stack|
  {
    if i < |w.stack| - 1 then
      (if |w.stack[i + 1].dir| == |w.stack[i].dir| + 1 then Some(w.stack[i + 1].dir[|w.stack[i].dir|]) else None)
    else match w.act
      case Stat(p) => if |p| == |w.stack[i].dir| + 1 then Some(p[|w.stack[i].dir|]) else None
      case Unlink(p) => if |p| == |w.stack[i].dir| + 1 then Some(p[|w.stack[i].dir|]) else None
      case Read(p) => if |p| == |w.stack[i].dir| + 1 then Some(p[|w.stack[i].dir|]) else None
      case _ => None
  }

  /** What is left in frame `i`'s directory is still to be read or being dealt with. */
  ghost predicate FrameOk(es: Entries, w: Walker, i: nat)
    requires i < |w.stack|
  {
    && (w.stack[i].dir in es ==> es[w.stack[i].dir].Dir?)
    && forall n :: n in Children(es, w.stack[i].dir) ==> n in w.stack[i].todo || Busy(w, i) == Some(n)
  }

  predicate Inside(outer: Place, inner: Place) {
    |inner| == |outer| + 1 && outer <= inner
  }

  /** Where the next action takes place. */
  ghost predicate Placed(w: Walker, p: Place) {
    if w.stack == [] then p == w.base else Inside(Top(w).dir, p)
  }

  ghost predicate WalkerOk(es: Entries, w: Walker) {
    && (w.stack != [] ==> w.stack[0].dir == w.base)
    && (forall i :: 0 <= i < |w.stack| - 1 ==> Inside(w.stack[i].dir, w.stack[i + 1].dir))
    && (forall i :: 0 <= i < |w.stack| ==> FrameOk(es, w, i))
    && match w.act
       case Resolve(p) => w.stack == [] && p == w.base
       case Stat(p) => Placed(w, p) && p != []
       case Unlink(p) => Placed(w, p) && p != [] && (p in es ==> !es[p].Dir?)
       case Read(p) => Placed(w, p) && (p in es ==> es[p].Dir?)
       case Loop => w.stack != []
       case Rmdir => w.stack != [] && Top(w).todo == {} && Top(w).dir != []
       case Finished =>
         && w.stack == []
         && if w.base == [] then Children(es, []) == {} else w.base in es ==> !es[w.base].Dir? && !es[w.base].File?
       case Abandoned => w.stack == []
       case Failed => false
  }

  /** `now` is `es` without some of its entries. */
  ghost predicate Shrunk(es: Entries, now: Entries) {
    forall q :: q in now ==> q in es && now[q] == es[q]
  }

  /** Another walk's removals do not disturb this one. */
  lemma ShrinkingKeeps(es: Entries, now: Entries, w: Walker)
    requires WalkerOk(es, w) && Shrunk(es, now)
    ensures WalkerOk(now, w)
  {
    forall i | 0 <= i < |w.stack| ensures FrameOk(now, w, i) {
      assert FrameOk(es, w, i);
      forall n | n in Children(now, w.stack[i].dir) ensures n in w.stack[i].todo || Busy(w, i) == Some(n) {
        FewerChildren(es, now, w.stack[i].dir, n);
      }
    }
    if w.act.Finished? && w.base == [] {
      forall n ensures n !in Children(now, []) { FewerChildren(es, now, [], n); }
    }
  }

  lemma FewerChildren(es: Entries, now: Entries, p: Place, n: Name)
    requires Shrunk(es, now)
    ensures n in Children(now, p) ==> n in Children(es, p)
  {
  }

  lemma ChildIsAt(es: Entries, dir: Place, n: Name)
    ensures n in Children(es, dir) <==> dir + [n] in es
  {
    if n in Children(es, dir) {
      var q :| q in es && |q| == |dir| + 1 && dir <= q && q[|dir|] == n;
      assert q == dir + [n];
    }
    if dir + [n] in es {
      assert (dir + [n])[|dir|] == n;
    }
  }

  /** A call on a place that is gone returns. */
  lemma Returns(es: Entries, w: Walker, p: Place, count: nat)
    requires WalkerOk(es, w) && (w.act == Stat(p) || w.act == Unlink(p) || w.act == Read(p))
    requires p !in es && (w.stack == [] ==> p != [])
    ensures WalkerOk(es, w.(act := Return(w.stack), count := count))
  {
    var w' := w.(act := Return(w.stack), count := count);
    forall i | 0 <= i < |w'.stack| ensures FrameOk(es, w', i) {
      assert FrameOk(es, w, i);
      if i == |w.stack| - 1 {
        forall n | n in Children(es, w.stack[i].dir) ensures n in w.stack[i].todo {
          assert Busy(w, i) == Some(n) ==> p == w.stack[i].dir + [n];
          ChildIsAt(es, w.stack[i].dir, n);
        }
      } else {
        assert Busy(w', i) == Busy(w, i);
      }
    }
  }

  /** The innermost directory is gone and its call returns. */
  lemma Pops(es: Entries, w: Walker)
    requires WalkerOk(es, w) && (w.act.Rmdir? || w.act.Loop?) && Top(w).dir !in es && Top(w).dir != []
    ensures var stack := w.stack[..|w.stack| - 1]; WalkerOk(es, w.(stack := stack, act := Return(stack)))
  {
    var stack := w.stack[..|w.stack| - 1];
    var w' := w.(stack := stack, act := Return(stack));
    forall i | 0 <= i < |stack| ensures FrameOk(es, w', i) {
      assert FrameOk(es, w, i) && Inside(w.stack[i].dir, w.stack[i + 1].dir);
      if i == |stack| - 1 {
        forall n | n in Children(es, stack[i].dir) ensures n in stack[i].todo {
          assert Busy(w, i) == Some(n) ==> w.stack[i + 1].dir == stack[i].dir + [n];
          ChildIsAt(es, stack[i].dir, n);
        }
      } else {
        assert Busy(w', i) == Busy(w, i);
      }
    }
  }

  lemma Pushes(es: Entries, w: Walker, p: Place)
    requires WalkerOk(es, w) && w.act == Read(p)
    ensures WalkerOk(es, w.(stack := w.stack + [Frame(p, Children(es, p))], act := Loop))
  {
    var w' := w.(stack := w.stack + [Frame(p, Children(es, p))], act := Loop);
    forall i | 0 <= i < |w'.stack| ensures FrameOk(es, w', i) {
      if i < |w.stack| {
        assert FrameOk(es, w, i);
        assert Busy(w', i) == Busy(w, i);
      }
    }
  }

  /** A name is taken off the innermost list: to be visited, or because it is gone. */
  lemma Takes(es: Entries, w: Walker, n: Name, visit: bool)
    requires WalkerOk(es, w) && w.act.Loop? && n in Top(w).todo && (!visit ==> Top(w).dir + [n] !in es)
    ensures WalkerOk(es, w.(stack := SetTop(w, Top(w).todo - {n}),
                            act := if visit then Stat(Top(w).dir + [n]) else Loop))
  {
    var w' := w.(stack := SetTop(w, Top(w).todo - {n}), act := if visit then Stat(Top(w).dir + [n]) else Loop);
    forall i | 0 <= i < |w'.stack| ensures FrameOk(es, w', i) {
      assert FrameOk(es, w, i);
      if i == |w.stack| - 1 {
        ChildIsAt(es, Top(w).dir, n);
      } else {
        assert Busy(w', i) == Busy(w, i);
      }
    }
  }

  /** With nothing left to read or deal with, the directory is empty. */
  lemma TopIsEmpty(es: Entries, w: Walker)
    requires WalkerOk(es, w) && w.stack != [] && Top(w).todo == {} && (w.act.Loop? || w.act.Rmdir?)
    ensures Children(es, Top(w).dir) == {}
  {
    assert FrameOk(es, w, |w.stack| - 1);
  }

  lemma {:induction false} OnlyTheRootIsShort(w: Walker, i: nat)
    requires i < |w.stack| && forall j :: 0 <= j < |w.stack| - 1 ==> Inside(w.stack[j].dir, w.stack[j + 1].dir)
    ensures |w.stack[i].dir| >= i
  {
    if i == 0 {
    } else {
      OnlyTheRootIsShort(w, i - 1);
      assert Inside(w.stack[i - 1].dir, w.stack[i - 1 + 1].dir);
    }
  }

  /** Looking does not change which child the walk is busy with. */
  lemma Looks(es: Entries, w: Walker, p: Place, act: Act)
    requires WalkerOk(es, w) && w.act == Stat(p) && p in es
    requires if es[p].Dir? then act == Read(p) else act == Unlink(p)
    ensures WalkerOk(es, w.(act := act))
  {
    var w' := w.(act := act);
    forall i | 0 <= i < |w'.stack| ensures FrameOk(es, w', i) {
      assert FrameOk(es, w, i) && Busy(w', i) == Busy(w, i);
    }
  }

  lemma EndKeeps(es: Entries, w: Walker)
    requires WalkerOk(es, w) && w.act.Loop? && Top(w).todo == {}
    ensures WalkerOk(es, DoEnd(w))
  {
    TopIsEmpty(es, w);
    if Top(w).dir == [] {
      OnlyTheRootIsShort(w, |w.stack| - 1);
    } else if w.cancelled {
    } else {
      var w' := DoEnd(w);
      forall i | 0 <= i < |w'.stack| ensures FrameOk(es, w', i) {
        assert FrameOk(es, w, i) && Busy(w', i) == Busy(w, i);
      }
    }
  }

  /** The walk that steps stays sound, and never fails. */
  lemma StepKeepsWalker(es: Entries, w: Walker, step: Step)
    requires [] in es && es[[]].Dir? && WalkerOk(es, w) && Can(es, w, step) && Private(es, [])
    ensures WalkerOk(Remains(es, w, step), DoStep(es, w, step)) && Shrunk(es, Remains(es, w, step))
  {
    hide FrameOk, Children;
    match step
    case Next(n) => Takes(es, w, n, true);
    case Skip(n) => Takes(es, w, n, false);
    case Do =>
      match w.act
      case Resolve(p) =>
      case Stat(p) =>
        if w.cancelled {
        } else if p !in es {
          Returns(es, w, p, w.count);
        } else {
          Looks(es, w, p, if es[p].Dir? then Read(p) else Unlink(p));
        }
      case Unlink(p) =>
        ShrinkingKeeps(es, es - {p}, w);
        Returns(es - {p}, w, p, if p in es then w.count + 1 else w.count);
        assert p !in es ==> es - {p} == es;
      case Read(p) =>
        if p in es { Pushes(es, w, p); } else { Returns(es, w, p, w.count); }
      case Loop => EndKeeps(es, w);
      case Rmdir =>
        TopIsEmpty(es, w);
        ShrinkingKeeps(es, es - {Top(w).dir}, w);
        Pops(es - {Top(w).dir}, w);
  }

  // ---- Whole runs. ----

  ghost predicate IsRun(initial: Entries, states: seq<State>, events: seq<Event>) {
    && |states| == |events| + 1 && states[0] == State(initial, [])
    && WellFormed(initial) && Private(initial, [])
    && forall i :: 0 <= i < |events| ==> Enabled(states[i], events[i]) && states[i + 1] == Apply(states[i], events[i])
  }

  function Total(walkers: seq<Walker>): nat {
    if walkers == [] then 0 else Total(walkers[..|walkers| - 1]) + walkers[|walkers| - 1].count
  }

  ghost predicate Inv(initial: Entries, s: State) {
    && WellFormed(s.entries) && Private(s.entries, []) && Shrunk(initial, s.entries)
    && (forall i :: 0 <= i < |s.walkers| ==> WalkerOk(s.entries, s.walkers[i]))
    && Total(s.walkers) + |Leaves(s.entries, s.entries.Keys)| == |Leaves(initial, initial.Keys)|
  }

  lemma {:induction false} TotalAfter(walkers: seq<Walker>, i: nat, w: Walker)
    requires i < |walkers|
    ensures Total(walkers[i := w]) == Total(walkers) - walkers[i].count + w.count
  {
    var n := |walkers| - 1;
    if i < n {
      TotalAfter(walkers[..n], i, w);
      assert walkers[i := w][..n] == walkers[..n][i := w];
    } else {
      assert walkers[i := w][..n] == walkers[..n];
    }
  }

  /** Removing a non-directory, or an empty directory other than the root, keeps the tree a tree. */
  lemma RemoveOne(es: Entries, p: Place)
    requires WellFormed(es) && Private(es, []) && p != [] && p in es && (es[p].Dir? ==> Children(es, p) == {})
    ensures WellFormed(es - {p}) && Private(es - {p}, [])
  {
    hide Children;
    var now := es - {p};
    forall q | q in now && q != [] ensures Rooted(now, q) {
      assert Rooted(es, q);
      assert q == q[..|q| - 1] + [q[|q| - 1]];
      ChildIsAt(es, p, q[|q| - 1]);
    }
  }

  lemma OneLeafLess(es: Entries, p: Place)
    requires p in es
    ensures |Leaves(es, es.Keys)| == |Leaves(es - {p}, (es - {p}).Keys)| + (if es[p].Dir? then 0 else 1)
  {
    var now := es - {p};
    if es[p].Dir? {
      assert Leaves(es, es.Keys) == Leaves(now, now.Keys);
    } else {
      assert Leaves(es, es.Keys) == Leaves(now, now.Keys) + {p};
    }
  }

  lemma StepKeepsTree(es: Entries, w: Walker, step: Step)
    requires WellFormed(es) && Private(es, []) && WalkerOk(es, w) && Can(es, w, step)
    ensures var now, w' := Remains(es, w, step), DoStep(es, w, step);
            && WellFormed(now) && Private(now, [])
            && w'.count + |Leaves(now, now.Keys)| == w.count + |Leaves(es, es.Keys)|
  {
    hide WellFormed, FrameOk, Private;
    if step.Do? && w.act.Unlink? && w.act.place in es {
      RemoveOne(es, w.act.place);
      OneLeafLess(es, w.act.place);
    } else if step.Do? && w.act.Rmdir? && Children(es, Top(w).dir) == {} {
      var d := Top(w).dir;
      if d in es {
        DirectoryThere(es, w);
        RemoveOne(es, d);
        OneLeafLess(es, d);
      } else {
        assert es - {d} == es;
      }
    }
  }

  lemma DirectoryThere(es: Entries, w: Walker)
    requires w.stack != [] && WalkerOk(es, w)
    ensures w.act.Rmdir? ==> Top(w).dir != []
    ensures Top(w).dir in es ==> es[Top(w).dir].Dir?
  {
    assert FrameOk(es, w, |w.stack| - 1);
  }

  lemma InvBegin(initial: Entries, s: State, base: Place)
    requires Inv(initial, s)
    ensures Inv(initial, s.(walkers := s.walkers + [NewWalker(base)]))
  {
    hide WellFormed, Private, WalkerOk;
    NewIsOk(s.entries, base);
    assert (s.walkers + [NewWalker(base)])[..|s.walkers|] == s.walkers;
  }

  lemma InvCancel(initial: Entries, s: State, i: nat)
    requires Inv(initial, s) && i < |s.walkers|
    ensures Inv(initial, s.(walkers := s.walkers[i := s.walkers[i].(cancelled := true)]))
  {
    hide WellFormed, Private, WalkerOk;
    CancelKeepsWalker(s.entries, s.walkers[i]);
    TotalAfter(s.walkers, i, s.walkers[i].(cancelled := true));
  }

  lemma InvStep(initial: Entries, s: State, i: nat, step: Step)
    requires Inv(initial, s) && i < |s.walkers| && Can(s.entries, s.walkers[i], step)
    ensures var es, w := s.entries, s.walkers[i];
            Inv(initial, State(Remains(es, w, step), s.walkers[i := DoStep(es, w, step)]))
  {
    hide WellFormed, Private, WalkerOk, DoStep, Remains, Can;
    RootIsThere(s.entries);
    StepKeepsWalker(s.entries, s.walkers[i], step);
    StepKeepsTree(s.entries, s.walkers[i], step);
    var now, w := Remains(s.entries, s.walkers[i], step), DoStep(s.entries, s.walkers[i], step);
    TotalAfter(s.walkers, i, w);
    var walkers := s.walkers[i := w];
    forall j | 0 <= j < |walkers| ensures WalkerOk(now, walkers[j]) {
      if j != i { ShrinkingKeeps(s.entries, now, s.walkers[j]); }
    }
  }

  lemma CancelKeepsWalker(es: Entries, w: Walker)
    requires WalkerOk(es, w)
    ensures WalkerOk(es, w.(cancelled := true))
  {
    var w' := w.(cancelled := true);
    forall i | 0 <= i < |w'.stack| ensures FrameOk(es, w', i) {
      assert FrameOk(es, w, i) && Busy(w', i) == Busy(w, i);
    }
  }

  lemma NewIsOk(es: Entries, base: Place)
    ensures WalkerOk(es, NewWalker(base))
  {}

  lemma {:induction false} EveryState(initial: Entries, states: seq<State>, events: seq<Event>, n: nat)
    requires IsRun(initial, states, events) && n < |states|
    ensures Inv(initial, states[n])
  {
    hide Inv, Can, DoStep, Remains, Barred;
    if n == 0 {
      AtFirst(initial);
    } else {
      EveryState(initial, states, events, n - 1);
      var s, ev := states[n - 1], events[n - 1];
      assert Enabled(s, ev) && states[n] == Apply(s, ev);
      match ev
      case Begin(base) => InvBegin(initial, s, base);
      case Cancel(i) => InvCancel(initial, s, i);
      case On(i, step) => InvStep(initial, s, i, step);
    }
  }

  lemma AtFirst(initial: Entries)
    requires WellFormed(initial) && Private(initial, [])
    ensures Inv(initial, State(initial, []))
  {
    hide WellFormed, Private, Leaves;
  }

  lemma NothingUnderBase(es: Entries, base: Place)
    requires WellFormed(es)
    requires if base == [] then Children(es, []) == {} else base in es ==> !es[base].Dir? && !es[base].File?
    ensures Doomed(es, base) == {}
  {
    if base == [] { SeenAll(es, []); }
  }
}
