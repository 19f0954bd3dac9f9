/**
`list` of the filesystem store: a recursive walk that reads directories in any order, then a sort.
*/
module FsList {
  import opened Wrappers
  import opened Keys
  import opened KeyMatching
  import opened Ordering
  import opened FsTree

  datatype FileMeta = FileMeta(key: string, size: nat)

  predicate AllText(q: Place) {
    forall i :: 0 <= i < |q| ==> q[i].Text?
  }

  function Texts(q: Place): seq<string>
    requires AllText(q)
  {
    seq(|q|, i requires 0 <= i < |q| => q[i].text)
  }

  /** A regular file the store may have written: its path is a valid key and its name not a temporary's. */
  predicate IsObject(es: Entries, q: Place) {
    && q in es && es[q].File? && q != [] && AllText(q)
    && !IsTempName(q[|q| - 1].text) && ValidateKey(Join(Texts(q))).Ok?
  }

  function Objects(es: Entries, s: set<Place>): set<Place> {
    set q | q in s && IsObject(es, q)
  }

  /** What is below the children of `dir` named in `done`. */
  function Seen(es: Entries, dir: Place, done: set<Name>): set<Place> {
    set q | q in es && dir < q && q[|dir|] in done
  }

  lemma SeenMore(es: Entries, dir: Place, done: set<Name>, n: Name)
    ensures Seen(es, dir, done + {n}) == Seen(es, dir, done) + Subtree(es, dir + [n])
    ensures n !in done ==> Seen(es, dir, done) !! Subtree(es, dir + [n])
  {
    forall q ensures q in Subtree(es, dir + [n]) <==> q in es && dir < q && q[|dir|] == n {
      if dir < q && q[|dir|] == n { assert q[..|dir| + 1] == dir + [n]; }
    }
  }

  lemma SeenAll(es: Entries, dir: Place)
    requires WellFormed(es) && dir in es
    ensures Seen(es, dir, Children(es, dir)) + {dir} == Subtree(es, dir)
  {
    forall q | q in Subtree(es, dir) ensures q in Seen(es, dir, Children(es, dir)) + {dir} {
      if q != dir { BelowAChild(es, dir, q); }
    }
  }

  lemma PrivateParts(es: Entries, dir: Place)
    requires WellFormed(es) && dir in es && es[dir].Dir?
    ensures Private(es, dir) <==> es[dir].ownerOnly && forall n :: n in Children(es, dir) ==> Private(es, dir + [n])
  {
    if es[dir].ownerOnly && forall n :: n in Children(es, dir) ==> Private(es, dir + [n]) {
      forall q | q in es && dir <= q && es[q].Dir? ensures es[q].ownerOnly {
        if q != dir {
          BelowAChild(es, dir, q);
          assert Private(es, dir + [q[|dir|]]);
        }
      }
    }
    if Private(es, dir) {
      forall n | n in Children(es, dir) ensures Private(es, dir + [n]) {
        forall q | q in es && dir + [n] <= q && es[q].Dir? ensures es[q].ownerOnly {
          assert dir <= q;
        }
      }
    }
  }

  /** A listing in the making: places without repetition. */
  ghost predicate Lists(out: seq<Place>, places: set<Place>) {
    Elements(out) == places && |places| == |out|
  }

  lemma ListsBoth(a: seq<Place>, s: set<Place>, b: seq<Place>, t: set<Place>)
    requires Lists(a, s) && Lists(b, t) && s !! t
    ensures Lists(a + b, s + t)
  {
    assert Elements(a + b) == Elements(a) + Elements(b);
  }

  lemma ObjectsOfBoth(es: Entries, s: set<Place>, t: set<Place>)
    ensures Objects(es, s + t) == Objects(es, s) + Objects(es, t)
    ensures s !! t ==> Objects(es, s) !! Objects(es, t)
  {
    hide IsObject;
  }

  lemma NothingSeen(es: Entries, dir: Place)
    ensures Lists([], Objects(es, Seen(es, dir, {})))
  {
    assert Objects(es, Seen(es, dir, {})) == {};
  }

  lemma ChildSeen(es: Entries, dir: Place, done: set<Name>, n: Name, out: seq<Place>, more: seq<Place>)
    requires n !in done && Lists(out, Objects(es, Seen(es, dir, done)))
    requires Lists(more, Objects(es, Subtree(es, dir + [n])))
    ensures Lists(out + more, Objects(es, Seen(es, dir, done + {n})))
  {
    hide *;
    SeenMore(es, dir, done, n);
    ObjectsOfBoth(es, Seen(es, dir, done), Subtree(es, dir + [n]));
    ListsBoth(out, Objects(es, Seen(es, dir, done)), more, Objects(es, Subtree(es, dir + [n])));
  }

  lemma ChildrenSeen(es: Entries, dir: Place, out: seq<Place>)
    requires WellFormed(es) && dir in es && es[dir].Dir? && Lists(out, Objects(es, Seen(es, dir, Children(es, dir))))
    ensures Lists(out, Objects(es, Subtree(es, dir)))
  {
    hide *;
    SeenAll(es, dir);
    ObjectsOfBoth(es, Seen(es, dir, Children(es, dir)), {dir});
    NoObject(es, dir);
    var seen := Objects(es, Seen(es, dir, Children(es, dir)));
    assert seen + {} == seen;
  }

  /** The walk: refused exactly when some directory is not private, otherwise every object once. */
  method WalkFiles(es: Entries, dir: Place) returns (r: Result<seq<Place>, FsError>)
    requires WellFormed(es) && dir in es && es[dir].Dir?
    ensures r.Ok? <==> Private(es, dir)
    ensures r.Err? ==> r.error == NotPrivate
    ensures r.Ok? ==> Lists(r.value, Objects(es, Subtree(es, dir)))
    decreases |Subtree(es, dir)|, 0
  {
    hide *;
    PrivateParts(es, dir);
    if !es[dir].ownerOnly {
      return Err(NotPrivate);
    }
    var out, rest := [], Children(es, dir);
    ghost var done: set<Name> := {};
    NothingSeen(es, dir);
    while rest != {}
      invariant done + rest == Children(es, dir) && done !! rest
      invariant forall n :: n in done ==> Private(es, dir + [n])
      invariant Lists(out, Objects(es, Seen(es, dir, done)))
      decreases |rest|
    {
      var n :| n in rest;
      ChildIsSmaller(es, dir, n);
      var more := WalkChild(es, dir + [n]);
      if more.Err? {
        return Err(more.error);
      }
      ChildSeen(es, dir, done, n, out, more.value);
      out, rest, done := out + more.value, rest - {n}, done + {n};
    }
    assert done == Children(es, dir);
    ChildrenSeen(es, dir, out);
    r := Ok(out);
  }

  lemma NoObject(es: Entries, dir: Place)
    requires dir in es && es[dir].Dir?
    ensures Objects(es, {dir}) == {}
  {}

  /** One entry of a directory. */
  method WalkChild(es: Entries, p: Place) returns (r: Result<seq<Place>, FsError>)
    requires WellFormed(es) && p in es
    ensures r.Ok? <==> Private(es, p)
    ensures r.Err? ==> r.error == NotPrivate
    ensures r.Ok? ==> Lists(r.value, Objects(es, Subtree(es, p)))
    decreases |Subtree(es, p)|, 1
  {
    if es[p].Dir? {
      r := WalkFiles(es, p);
    } else {
      AloneThere(es, p);
      hide IsObject, Join, WellFormed, Private;
      r := Ok(if IsObject(es, p) then [p] else []);
      assert Objects(es, {p}) == if IsObject(es, p) then {p} else {};
      assert Elements(r.value) == Objects(es, {p});
    }
  }

  lemma AloneThere(es: Entries, p: Place)
    requires WellFormed(es) && p in es && !es[p].Dir?
    ensures Subtree(es, p) == {p} && Private(es, p)
  {
    forall q | q in Subtree(es, p) ensures q == p {
      AboveIf(es, q, |p|);
      assert q[..|p|] == p;
    }
    assert forall q :: q in es && p <= q ==> q in Subtree(es, p);
  }

  // ---- Keys of places. ----

  /** A valid key names the place its components lead to, and no other place has that key. */
  lemma KeyOfPlace(key: string, q: Place)
    requires q != [] && AllText(q) && forall i :: 0 <= i < |q| ==> NameOk(q[i])
    ensures Join(Texts(q)) == key <==> Names(Split(key)) == q
  {
    forall i | 0 <= i < |q| ensures SlashFree(Texts(q)[i]) { assert NameOk(q[i]); }
    SplitOfJoin(Texts(q));
    JoinOfSplit(key);
    hide Split, Join;
    if Names(Split(key)) == q {
      assert Texts(q) == Split(key) by {
        assert forall i :: 0 <= i < |q| ==> q[i] == Names(Split(key))[i];
      }
    }
    if Join(Texts(q)) == key {
      assert Names(Split(key)) == q;
    }
  }

  lemma NamesOk(es: Entries, q: Place)
    requires WellFormed(es) && q in es
    ensures forall i :: 0 <= i < |q| ==> NameOk(q[i])
  {
    forall i | 0 <= i < |q| ensures NameOk(q[i]) { AboveIsDirectory(es, q, i); }
  }

  /** `m` is an object of the tree under `prefix`: told by its key alone. */
  ghost predicate Listed(m: FileMeta, es: Entries, prefix: string) {
    && KeyMatchesPrefix(m.key, prefix) && ValidateKey(m.key).Ok?
    && Names(Split(m.key)) in es && es[Names(Split(m.key))] == File(m.size)
    && !IsTempName(Split(m.key)[|Split(m.key)| - 1])
  }

  function MetaOf(es: Entries, q: Place): FileMeta
    requires IsObject(es, q)
  {
    FileMeta(Join(Texts(q)), es[q].size)
  }

  /** Below the place of a prefix are the keys that match it. */
  lemma BelowIsMatching(prefix: string, key: string)
    ensures PlaceOf(prefix) <= Names(Split(key)) <==> KeyMatchesPrefix(key, prefix)
  {
    if prefix != "" {
      MatchesIsComponentPrefix(key, prefix);
      var a, b := Split(prefix), Split(key);
      hide Split, KeyMatchesPrefix;
      if a <= b {
        assert forall i :: 0 <= i < |a| ==> Names(a)[i] == Names(b)[i];
        assert Names(a) == Names(b)[..|a|];
      }
      if Names(a) <= Names(b) {
        forall i | 0 <= i < |a| ensures a[i] == b[i] { assert Names(a)[i] == Names(b)[i]; }
      }
    }
  }

  lemma ObjectIsListed(es: Entries, prefix: string, q: Place)
    requires WellFormed(es) && IsObject(es, q) && PlaceOf(prefix) <= q
    ensures Listed(MetaOf(es, q), es, prefix) && Names(Split(MetaOf(es, q).key)) == q
  {
    NamesOk(es, q);
    KeyOfPlace(MetaOf(es, q).key, q);
    BelowIsMatching(prefix, MetaOf(es, q).key);
  }

  lemma ListedIsObject(es: Entries, prefix: string, m: FileMeta)
    requires WellFormed(es) && Listed(m, es, prefix)
    ensures var q := Names(Split(m.key)); IsObject(es, q) && PlaceOf(prefix) <= q && MetaOf(es, q) == m
  {
    var q := Names(Split(m.key));
    NamesOk(es, q);
    KeyOfPlace(m.key, q);
    BelowIsMatching(prefix, m.key);
  }

  // ---- Sorting. ----

  ghost predicate InKeyOrder(metas: seq<FileMeta>) {
    forall i, j :: 0 <= i < j < |metas| ==> KeyLess(metas[i].key, metas[j].key)
  }

  /** `m` in its place among `sorted`. */
  method InsertByKey(sorted: seq<FileMeta>, m: FileMeta) returns (longer: seq<FileMeta>)
    requires InKeyOrder(sorted) && forall x :: x in sorted ==> x.key != m.key
    ensures InKeyOrder(longer) && Elements(longer) == Elements(sorted) + {m}
  {
    KeysAreOrdered();
    hide KeyLess;
    var i: nat := |sorted|;
    while i > 0 && KeyLess(m.key, sorted[i - 1].key)
      invariant i <= |sorted| && forall j :: i <= j < |sorted| ==> KeyLess(m.key, sorted[j].key)
    {
      i := i - 1;
    }
    assert i > 0 ==> KeyLess(sorted[i - 1].key, m.key) by { assert i > 0 ==> sorted[i - 1] in sorted; }
    longer := sorted[..i] + [m] + sorted[i..];
    assert Elements(sorted) == Elements(sorted[..i]) + Elements(sorted[i..]) by {
      assert sorted == sorted[..i] + sorted[i..];
    }
  }

  method SortByKey(metas: seq<FileMeta>) returns (sorted: seq<FileMeta>)
    requires forall i, j :: 0 <= i < j < |metas| ==> metas[i].key != metas[j].key
    ensures InKeyOrder(sorted) && Elements(sorted) == Elements(metas)
  {
    sorted := [];
    for i := 0 to |metas|
      invariant InKeyOrder(sorted) && Elements(sorted) == Elements(metas[..i])
    {
      forall x | x in sorted ensures x.key != metas[i].key {
        assert x in Elements(metas[..i]);
      }
      assert Elements(metas[..i + 1]) == Elements(metas[..i]) + {metas[i]} by {
        assert metas[..i + 1] == metas[..i] + [metas[i]];
      }
      sorted := InsertByKey(sorted, metas[i]);
    }
    assert metas[..|metas|] == metas;
  }

  // ---- The listing. ----

  /** `metas` is, in key order, exactly the objects under `prefix`. */
  ghost predicate IsListing(metas: seq<FileMeta>, es: Entries, prefix: string) {
    InKeyOrder(metas) && forall m :: m in metas <==> Listed(m, es, prefix)
  }

  method Describe(es: Entries, prefix: string, out: seq<Place>) returns (metas: seq<FileMeta>)
    requires WellFormed(es) && Lists(out, Objects(es, Subtree(es, PlaceOf(prefix))))
    ensures IsListing(metas, es, prefix)
  {
    Distinct(out);
    forall i | 0 <= i < |out|
      ensures IsObject(es, out[i]) && Listed(MetaOf(es, out[i]), es, prefix)
      ensures Names(Split(MetaOf(es, out[i]).key)) == out[i]
    {
      assert out[i] in Elements(out);
      ObjectIsListed(es, prefix, out[i]);
    }
    hide IsObject, Listed, WellFormed;
    var all := seq(|out|, i requires 0 <= i < |out| => MetaOf(es, out[i]));
    forall m ensures m in Elements(all) <==> Listed(m, es, prefix) {
      if Listed(m, es, prefix) {
        ListedIsObject(es, prefix, m);
        var q := Names(Split(m.key));
        assert q in Subtree(es, PlaceOf(prefix)) by { ThereAlready(es, q); }
        assert q in Elements(out);
        var i :| 0 <= i < |out| && out[i] == q;
        assert all[i] == m;
      }
    }
    metas := SortByKey(all);
    forall m ensures m in metas <==> Listed(m, es, prefix) {
      assert m in metas <==> m in Elements(metas);
    }
  }

  lemma ThereAlready(es: Entries, q: Place)
    requires IsObject(es, q)
    ensures q in es
  {}

  lemma {:induction false} Distinct(out: seq<Place>)
    requires |Elements(out)| == |out|
    ensures forall i, j :: 0 <= i < j < |out| ==> out[i] != out[j]
  {
    if out == [] {
    } else {
      var rest, last := out[..|out| - 1], out[|out| - 1];
      assert Elements(out) == Elements(rest) + {last};
      ElementsBound(rest);
      Distinct(rest);
      assert last !in Elements(rest);
    }
  }

  lemma {:induction false} ElementsBound(out: seq<Place>)
    ensures |Elements(out)| <= |out|
  {
    if out == [] {
      assert Elements(out) == {};
    } else {
      ElementsBound(out[..|out| - 1]);
      assert Elements(out) == Elements(out[..|out| - 1]) + {out[|out| - 1]};
    }
  }

  /** A prefix whose place is missing, or is no directory, has at most that place below it. */
  lemma NothingUnder(es: Entries, p: Place)
    requires WellFormed(es) && p !in es
    ensures Objects(es, Subtree(es, p)) == {}
  {
    forall q ensures q !in Subtree(es, p) {
      if p <= q {
        assert q[..|p|] == p && (q == p || |p| < |q|);
        AboveIf(es, q, |p|);
      }
    }
  }

  /**
  `list`: refused exactly for a bad prefix, a path that may not be walked or a directory that is
  not private; otherwise the valid, non-temporary keys that match the prefix, sorted, and no
  others, whatever order directories were read in.
  */
  method CollectObjects(es: Entries, prefix: string) returns (r: Result<seq<FileMeta>, FsError>)
    requires WellFormed(es)
    ensures var p := PlaceOf(StripSlash(prefix));
            r.Err? <==> || ValidatePrefix(prefix).Err? || !es[[]].ownerOnly || Barred(es, p)
                        || (p in es && es[p].Dir? && !Private(es, p))
    ensures r.Err? ==> Refusal(es, prefix, r.error)
    ensures r.Ok? ==> IsListing(r.value, es, StripSlash(prefix))
  {
    RefusalIs(es, prefix);
    hide *;
    RootIsThere(es);
    if ValidatePrefix(prefix).Err? {
      return Err(InvalidPrefix(ValidatePrefix(prefix).error));
    }
    if !es[[]].ownerOnly {
      return Err(NotPrivate);
    }
    var p := PlaceOf(StripSlash(prefix));
    var walked := WalkComponents(es, p);
    if walked.Err? {
      return Err(walked.error);
    }
    var out := [];
    if walked.value.Found? {
      var found := WalkChild(es, p);
      if found.Err? {
        if !es[p].Dir? { AloneThere(es, p); }
        return Err(found.error);
      }
      out := found.value;
    } else if p in es {
      AloneThere(es, p);
      NotAFile(es, p);
    } else {
      NothingUnder(es, p);
      NoneListed();
    }
    var metas := Describe(es, StripSlash(prefix), out);
    r := Ok(metas);
  }

  lemma RefusalIs(es: Entries, prefix: string)
    requires WellFormed(es)
    ensures ValidatePrefix(prefix).Err? ==> Refusal(es, prefix, InvalidPrefix(ValidatePrefix(prefix).error))
    ensures ValidatePrefix(prefix).Ok? && !es[[]].ownerOnly ==> Refusal(es, prefix, NotPrivate)
    ensures var p := PlaceOf(StripSlash(prefix));
            ValidatePrefix(prefix).Ok? && es[[]].ownerOnly ==>
              && (Barred(es, p) ==> forall e :: FirstBar(es, p, e) ==> Refusal(es, prefix, e))
              && (!Barred(es, p) ==> Refusal(es, prefix, NotPrivate))
  {
    hide ValidatePrefix, Barred, FirstBar, PlaceOf;
  }

  lemma NotAFile(es: Entries, p: Place)
    requires p in es && !es[p].File?
    ensures Lists([], Objects(es, {p}))
  {
    assert Objects(es, {p}) == {};
  }

  lemma NoneListed()
    ensures Lists([], {})
  {}
}
