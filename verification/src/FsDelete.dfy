/**
`delete_prefix` of the filesystem store, by itself: the check of the whole tree, the recursive
removal, and the flag a dropped call sets. The flag may be set at any moment, so time is counted
in the walk's own steps and the flag is set from step `cancelAt` on.
*/
module FsDelete {
  import opened Wrappers
  import opened Keys
  import opened Ordering
  import opened FsTree
  import opened FsList

  /** `now` is `before` without some of what was at or below `p`. */
  ghost predicate Pruned(before: Entries, now: Entries, p: Place) {
    && (forall q :: q in now ==> q in before && now[q] == before[q])
    && (forall q :: q in before && !(p <= q) ==> q in now)
  }

  lemma PrunedTwice(a: Entries, b: Entries, c: Entries, p: Place, q: Place)
    requires Pruned(a, b, p) && Pruned(b, c, q) && p <= q
    ensures Pruned(a, c, p)
  {}

  lemma PrunedNot(es: Entries, p: Place)
    ensures Pruned(es, es, p)
  {}

  /** A subtree as a whole may go. */
  lemma WithoutSubtree(es: Entries, p: Place)
    requires WellFormed(es) && p != []
    ensures WellFormed(es - Subtree(es, p)) && Pruned(es, es - Subtree(es, p), p)
  {
    var now := es - Subtree(es, p);
    assert [] in now;
    forall q | q in now && q != [] ensures Rooted(now, q) {
      assert Rooted(es, q);
      assert p <= q[..|q| - 1] ==> p <= q;
    }
  }

  /** A directory is empty once everything below its children is gone. */
  lemma EmptiedDirectory(es: Entries, dir: Place)
    requires WellFormed(es) && dir in es
    ensures es - Seen(es, dir, Children(es, dir)) - {dir} == es - Subtree(es, dir)
  {
    SeenAll(es, dir);
  }

  lemma LeavesOfBoth(es: Entries, s: set<Place>, t: set<Place>)
    requires s !! t
    ensures |Leaves(es, s + t)| == |Leaves(es, s)| + |Leaves(es, t)|
  {
    assert Leaves(es, s + t) == Leaves(es, s) + Leaves(es, t) && Leaves(es, s) !! Leaves(es, t);
  }

  class Walk {
    var entries: Entries
    var clock: nat
    /** Removals that happened with the flag already set. */
    var late: nat
    const cancelAt: Option<nat>

    constructor (es: Entries, at: Option<nat>)
      requires WellFormed(es)
      ensures entries == es && cancelAt == at && InTime() && WellFormed(entries)
    {
      entries, clock, late, cancelAt := es, 0, 0, at;
    }

    predicate Cancelled()
      reads this`clock
    {
      cancelAt.Some? && cancelAt.value <= clock
    }

    ghost predicate InTime()
      reads this`clock, this`late
    {
      late <= 1 && (late == 1 ==> Cancelled())
    }

    method CheckCancel() returns (stopped: bool)
      requires InTime()
      modifies this`clock
      ensures InTime() && old(clock) <= clock && stopped == old(Cancelled())
      ensures if stopped then Cancelled() else late == 0
    {
      stopped := Cancelled();
      clock := clock + 1;
    }

    /** `remove_file` or `remove_dir`: the entry is gone. */
    method Remove(p: Place)
      requires InTime() && late == 0
      modifies this
      ensures InTime() && old(clock) <= clock && entries == old(entries) - {p}
    {
      if Cancelled() {
        late := late + 1;
      }
      clock := clock + 1;
      entries := entries - {p};
    }

    /**
    Remove an entry and, of a directory, everything below. Whatever happens, nothing outside is
    touched and at most one entry goes after the flag was set. It succeeds only with the whole
    subtree gone and every non-directory in it counted, and fails only for the flag or for a
    directory that is not private.
    */
    method DeleteEntry(p: Place) returns (r: Result<nat, FsError>)
      requires WellFormed(entries) && p != [] && InTime()
      modifies this
      ensures WellFormed(entries) && Pruned(old(entries), entries, p)
      ensures InTime() && old(clock) <= clock
      ensures var gone := Subtree(old(entries), p);
              r.Ok? ==> entries == old(entries) - gone && r.value == |Leaves(old(entries), gone)|
      ensures r.Err? ==>
                (r.error == Stopped && Cancelled()) || (r.error == NotPrivate && !Private(old(entries), p))
      decreases |Subtree(entries, p)|, 1
    {
      hide *;
      PrunedNot(entries, p);
      WithoutSubtree(entries, p);
      var stopped := CheckCancel();
      if stopped {
        return Err(Stopped);
      }
      if p !in entries {
        Absent(entries, p);
        return Ok(0);
      }
      if !entries[p].Dir? {
        SingleLeaf(entries, p);
        Remove(p);
        return Ok(1);
      }
      if !entries[p].ownerOnly {
        PermissiveRoot(entries, p);
        return Err(NotPrivate);
      }
      r := DeleteChildren(p);
      if r.Err? {
        return;
      }
      EmptiedDirectory(old(entries), p);
      CountBelow(old(entries), p);
      stopped := CheckCancel();
      if stopped {
        return Err(Stopped);
      }
      Remove(p);
    }

    method DeleteChildren(p: Place) returns (r: Result<nat, FsError>)
      requires WellFormed(entries) && p in entries && entries[p].Dir? && InTime()
      modifies this
      ensures WellFormed(entries) && Pruned(old(entries), entries, p) && p in entries
      ensures InTime() && old(clock) <= clock
      ensures var below := Seen(old(entries), p, Children(old(entries), p));
              r.Ok? ==> entries == old(entries) - below && r.value == |Leaves(old(entries), below)|
      ensures r.Err? ==>
                (r.error == Stopped && Cancelled()) || (r.error == NotPrivate && !Private(old(entries), p))
      decreases |Subtree(entries, p)|, 0
    {
      hide *;
      ghost var before := entries;
      var count, rest := 0, Children(entries, p);
      ghost var done: set<Name> := {};
      NothingDone(before, p);
      PrunedNot(before, p);
      while rest != {}
        invariant done + rest == Children(before, p) && done !! rest
        invariant WellFormed(entries) && Pruned(before, entries, p) && p in entries
        invariant InTime() && old(clock) <= clock
        invariant entries == before - Seen(before, p, done) && count == |Leaves(before, Seen(before, p, done))|
        decreases |rest|
      {
        var n :| n in rest;
        ghost var current := entries;
        ChildIsSmaller(before, p, n);
        ChildUntouched(before, p, done, n);
        var more := DeleteEntry(p + [n]);
        AfterChild(before, current, entries, p, n);
        if more.Err? {
          return Err(more.error);
        }
        count, rest, done := count + more.value, rest - {n}, done + {n};
      }
      assert done == Children(before, p);
      r := Ok(count);
    }

    /**
    `delete_prefix`: refused as a whole, the tree unchanged, exactly for a bad prefix, a path that
    may not be walked or a directory anywhere under the prefix that is not private. Otherwise,
    unless the call is dropped, everything under the prefix is gone and nothing else, the root
    stays, and the count is the number of non-directories removed. A dropped call removes at most
    one entry more.
    */
    method DeleteObjects(prefix: string) returns (r: Result<nat, FsError>)
      requires WellFormed(entries) && InTime() && late == 0
      modifies this
      ensures WellFormed(entries) && late <= 1
      ensures var doomed := Doomed(old(entries), PlaceOf(StripSlash(prefix)));
              && (forall q :: q in entries ==> q in old(entries) && entries[q] == old(entries)[q])
              && (forall q :: q in old(entries) && q !in doomed ==> q in entries)
              && (r.Ok? ==> entries == old(entries) - doomed && r.value == |Leaves(old(entries), doomed)|)
      ensures r.Err? && r.error != Stopped <==> Refused(old(entries), prefix)
      ensures Refused(old(entries), prefix) ==> entries == old(entries)
      ensures r.Err? && r.error != Stopped ==> Refusal(old(entries), prefix, r.error)
      ensures r == Err(Stopped) ==> Cancelled()
    {
      RefusalIs(entries, prefix);
      hide WellFormed, Private, Barred, ValidatePrefix, StripSlash, PlaceOf, Seen, Children, Refusal;
      var p := PlaceOf(StripSlash(prefix));
      RootIsThere(entries);
      NothingGone(entries);
      if ValidatePrefix(prefix).Err? {
        return Err(InvalidPrefix(ValidatePrefix(prefix).error));
      }
      if !entries[[]].ownerOnly {
        return Err(NotPrivate);
      }
      var walked := WalkComponents(entries, p);
      if walked.Err? {
        return Err(walked.error);
      }
      if walked.value.Nothing? || entries[p].Other? {
        return Ok(0);
      }
      if entries[p].File? {
        var stopped := CheckCancel();
        if stopped {
          return Err(Stopped);
        }
        SingleLeaf(entries, p);
        WithoutSubtree(entries, p);
        Remove(p);
        return Ok(1);
      }
      var private := CheckTree(entries, p);
      if !private {
        return Err(NotPrivate);
      }
      r := DeleteDirectory(p);
    }

    /** Everything below the root, or a directory and everything in it; the tree has been checked. */
    method DeleteDirectory(p: Place) returns (r: Result<nat, FsError>)
      requires WellFormed(entries) && InTime() && late == 0 && p in entries && entries[p].Dir? && Private(entries, p)
      modifies this
      ensures WellFormed(entries) && InTime() && Pruned(old(entries), entries, p) && (p == [] ==> [] in entries)
      ensures var doomed := Doomed(old(entries), p);
              r.Ok? ==> entries == old(entries) - doomed && r.value == |Leaves(old(entries), doomed)|
      ensures r.Err? ==> r.error == Stopped && Cancelled()
    {
      hide *;
      BelowIsDoomed(entries, p);
      if p == [] {
        r := DeleteChildren(p);
      } else {
        r := DeleteEntry(p);
      }
    }
  }

  lemma NothingGone(es: Entries)
    ensures es == es - {} && Leaves(es, {}) == {}
  {}

  lemma BelowIsDoomed(es: Entries, p: Place)
    requires WellFormed(es) && p in es && es[p].Dir?
    ensures Doomed(es, p) == if p == [] then Seen(es, p, Children(es, p)) else Subtree(es, p)
  {
    SeenAll(es, p);
  }

  lemma NothingDone(es: Entries, p: Place)
    ensures es == es - Seen(es, p, {}) && |Leaves(es, Seen(es, p, {}))| == 0
  {
    assert Leaves(es, Seen(es, p, {})) == {};
  }

  /** Removing some children's subtrees leaves the next one's as it was. */
  lemma ChildUntouched(es: Entries, p: Place, done: set<Name>, n: Name)
    requires n !in done
    ensures var now := es - Seen(es, p, done);
            && Subtree(now, p + [n]) == Subtree(es, p + [n])
            && |Leaves(now, Subtree(now, p + [n]))| == |Leaves(es, Subtree(es, p + [n]))|
            && now - Subtree(now, p + [n]) == es - Seen(es, p, done + {n})
    ensures |Leaves(es, Seen(es, p, done + {n}))| ==
            |Leaves(es, Seen(es, p, done))| + |Leaves(es, Subtree(es, p + [n]))|
  {
    var now := es - Seen(es, p, done);
    SeenMore(es, p, done, n);
    LeavesOfBoth(es, Seen(es, p, done), Subtree(es, p + [n]));
    assert Subtree(now, p + [n]) == Subtree(es, p + [n]);
    assert Leaves(now, Subtree(now, p + [n])) == Leaves(es, Subtree(es, p + [n]));
  }

  lemma AfterChild(before: Entries, current: Entries, now: Entries, p: Place, n: Name)
    requires Pruned(before, current, p) && Pruned(current, now, p + [n]) && p in current
    ensures Pruned(before, now, p) && p in now
    ensures !Private(current, p + [n]) ==> !Private(before, p)
  {
    PrunedTwice(before, current, now, p, p + [n]);
  }

  lemma Absent(es: Entries, p: Place)
    requires WellFormed(es) && p !in es
    ensures es == es - Subtree(es, p) && Leaves(es, Subtree(es, p)) == {}
  {
    forall q ensures q !in Subtree(es, p) {
      if p <= q {
        assert q[..|p|] == p && (q == p || |p| < |q|);
        AboveIf(es, q, |p|);
      }
    }
  }

  lemma SingleLeaf(es: Entries, p: Place)
    requires WellFormed(es) && p in es && !es[p].Dir?
    ensures Subtree(es, p) == {p} && |Leaves(es, Subtree(es, p))| == 1
  {
    AloneThere(es, p);
    assert Leaves(es, {p}) == {p};
  }

  lemma PermissiveRoot(es: Entries, p: Place)
    requires p in es && es[p].Dir? && !es[p].ownerOnly
    ensures !Private(es, p)
  {}

  lemma CountBelow(es: Entries, p: Place)
    requires WellFormed(es) && p in es && es[p].Dir?
    ensures |Leaves(es, Subtree(es, p))| == |Leaves(es, Seen(es, p, Children(es, p)))|
  {
    SeenAll(es, p);
    assert Leaves(es, Subtree(es, p)) == Leaves(es, Seen(es, p, Children(es, p)));
  }

  // ---- The whole operation. ----

  /** What deleting at `p` removes: everything below the root, or a file or directory with what is in it. */
  function Doomed(es: Entries, p: Place): set<Place> {
    if p == [] then Subtree(es, p) - {p}
    else if p in es && (es[p].Dir? || es[p].File?) then Subtree(es, p)
    else {}
  }

  ghost predicate Refused(es: Entries, prefix: string)
    requires [] in es && es[[]].Dir?
  {
    var p := PlaceOf(StripSlash(prefix));
    || ValidatePrefix(prefix).Err? || !es[[]].ownerOnly || Barred(es, p)
    || (p in es && es[p].Dir? && !Private(es, p))
  }

  /** The check before anything is removed. */
  method CheckTree(es: Entries, dir: Place) returns (private: bool)
    requires WellFormed(es) && dir in es && es[dir].Dir?
    ensures private <==> Private(es, dir)
    decreases |Subtree(es, dir)|
  {
    hide *;
    PrivateParts(es, dir);
    if !es[dir].ownerOnly {
      return false;
    }
    var rest := Children(es, dir);
    while rest != {}
      invariant rest <= Children(es, dir)
      invariant forall n :: n in Children(es, dir) - rest ==> Private(es, dir + [n])
      decreases |rest|
    {
      var n :| n in rest;
      ChildIsSmaller(es, dir, n);
      if es[dir + [n]].Dir? {
        private := CheckTree(es, dir + [n]);
        if !private {
          return false;
        }
      } else {
        AloneThere(es, dir + [n]);
      }
      rest := rest - {n};
    }
    private := true;
  }
}
