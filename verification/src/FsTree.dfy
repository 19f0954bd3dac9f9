/**
The filesystem store's tree, as a map from paths below the root to what is there. A path never
passes through a link: what is behind one is not in the map. Whether a directory passes the
owner-only rule is one boolean.
*/
module FsTree {
  import opened Wrappers
  import opened Keys
  import opened KeyMatching
  import opened Ordering

  /** A file name: text, or bytes that are not UTF-8. */
  datatype Name = Text(text: string) | Raw(id: nat)

  type Place = seq<Name>

  datatype Kind = File(size: nat) | Dir(ownerOnly: bool) | Symlink | Other

  type Entries = map<Place, Kind>

  const TEMP_PREFIX := ".put-"
  const TEMP_SUFFIX := ".tmp"

  predicate IsTempName(name: string) {
    TEMP_PREFIX <= name && |TEMP_SUFFIX| <= |name| && name[|name| - |TEMP_SUFFIX|..] == TEMP_SUFFIX
  }

  /** A temporary's name is the prefix, anything, and the suffix. */
  lemma TempNames(name: string)
    ensures IsTempName(name) <==> exists middle :: name == ".put-" + middle + ".tmp"
  {
    if IsTempName(name) {
      var n := |name|;
      assert name[1] == 'p' && name[2] == 'u' && name[3] == 't' && name[4] == '-';
      assert name[n - 4..][0] == name[n - 4] == '.';
      assert name == ".put-" + name[5..n - 4] + ".tmp";
    }
    forall middle ensures IsTempName(".put-" + middle + ".tmp") {
      var s := ".put-" + middle + ".tmp";
      assert s[..5] == ".put-" && s[|s| - 4..] == ".tmp";
    }
  }

  /** What the operating system accepts as a name. */
  predicate NameOk(n: Name) {
    n.Text? ==> n.text != "" && '/' !in n.text && n.text != "." && n.text != ".."
  }

  ghost predicate WellFormed(es: Entries) {
    && [] in es && es[[]].Dir?
    && forall p :: p in es && p != [] ==> Rooted(es, p)
  }

  ghost predicate Rooted(es: Entries, p: Place)
    requires p != []
  {
    NameOk(p[|p| - 1]) && p[..|p| - 1] in es && es[p[..|p| - 1]].Dir?
  }

  /** Everything at or below `p`. */
  function Subtree(es: Entries, p: Place): set<Place> {
    set q | q in es && p <= q
  }

  function Children(es: Entries, p: Place): set<Name> {
    set q | q in es && |q| == |p| + 1 && p <= q :: q[|p|]
  }

  /** Of the places in `s`, those that are not directories. */
  function Leaves(es: Entries, s: set<Place>): set<Place> {
    set q | q in s && q in es && !es[q].Dir?
  }

  /** No directory at or below `p` fails the owner-only rule. */
  ghost predicate Private(es: Entries, p: Place) {
    forall q :: q in es && p <= q && es[q].Dir? ==> es[q].ownerOnly
  }

  /** Everything above an entry is a directory. */
  lemma {:induction false} AboveIsDirectory(es: Entries, p: Place, n: nat)
    requires WellFormed(es) && p in es && n < |p|
    ensures p[..n] in es && es[p[..n]].Dir? && NameOk(p[n])
    decreases |p|
  {
    assert Rooted(es, p);
    var parent := p[..|p| - 1];
    if n == |p| - 1 {
    } else {
      AboveIsDirectory(es, parent, n);
      assert parent[..n] == p[..n];
    }
  }

  lemma AboveIf(es: Entries, p: Place, n: nat)
    requires WellFormed(es)
    ensures p in es && n < |p| ==> p[..n] in es && es[p[..n]].Dir?
  {
    if p in es && n < |p| { AboveIsDirectory(es, p, n); }
  }

  /** What is strictly below a directory is below one of its children. */
  lemma BelowAChild(es: Entries, p: Place, q: Place)
    requires WellFormed(es) && q in es && p < q
    ensures q[|p|] in Children(es, p) && p + [q[|p|]] <= q && p + [q[|p|]] in es
  {
    var c := p + [q[|p|]];
    assert q[..|p| + 1] == c;
    if |q| > |p| + 1 { AboveIsDirectory(es, q, |p| + 1); } else { assert q == c; }
    assert c in es && c[|p|] == q[|p|];
  }

  lemma ChildIsSmaller(es: Entries, p: Place, n: Name)
    requires p in es && n in Children(es, p)
    ensures p + [n] in es && Subtree(es, p + [n]) < Subtree(es, p)
    ensures |Subtree(es, p + [n])| < |Subtree(es, p)|
  {
    var q :| q in es && |q| == |p| + 1 && p <= q && q[|p|] == n;
    assert q == p + [n];
    assert p in Subtree(es, p) && p !in Subtree(es, p + [n]);
    SmallerSet(Subtree(es, p + [n]), Subtree(es, p));
  }

  // ---- Resolving a prefix. ----

  function Names(parts: seq<string>): Place {
    seq(|parts|, i requires 0 <= i < |parts| => Text(parts[i]))
  }

  /** Where a normalized prefix leads: the root, or its components below it. */
  function PlaceOf(prefix: string): Place {
    if prefix == "" then [] else Names(Split(prefix))
  }

  datatype FsError = SymlinkInPath | NotPrivate | InvalidPrefix(rule: KeyError) | Stopped

  datatype Walked = Found(place: Place) | Nothing

  /** `p` may not be walked to: a directory on the way is not private, or a link is in the way. */
  ghost predicate Barred(es: Entries, p: Place) {
    exists n :: 0 < n <= |p| && BarredAt(es, p, n)
  }

  ghost predicate BarredAt(es: Entries, p: Place, n: nat)
    requires n <= |p|
  {
    p[..n] in es && (es[p[..n]] == Dir(false) || (es[p[..n]].Symlink? && n < |p|))
  }

  /** The first component that may not be walked through is a link, or a directory that is not private. */
  ghost predicate FirstBar(es: Entries, p: Place, error: FsError) {
    exists n :: 0 < n <= |p| && BarredAt(es, p, n) && (forall m :: 0 < m < n ==> !BarredAt(es, p, m))
                && error == if es[p[..n]].Symlink? then SymlinkInPath else NotPrivate
  }

  /** What a call that is not carried out at all says: the first of the rules that its prefix or path breaks. */
  ghost predicate Refusal(es: Entries, prefix: string, error: FsError)
    requires WellFormed(es)
  {
    var p := PlaceOf(StripSlash(prefix));
    if ValidatePrefix(prefix).Err? then error == InvalidPrefix(ValidatePrefix(prefix).error)
    else if !es[[]].ownerOnly then error == NotPrivate
    else if Barred(es, p) then FirstBar(es, p, error)
    else error == NotPrivate
  }

  /**
  The component walk with a final link meaning nothing: refused exactly when barred, for the
  first component that is, and otherwise it finds what is there unless that is a link.
  */
  method WalkComponents(es: Entries, place: Place) returns (r: Result<Walked, FsError>)
    requires WellFormed(es)
    ensures r.Err? <==> Barred(es, place)
    ensures r.Err? ==> FirstBar(es, place, r.error)
    ensures r.Ok? ==> r.value == if place in es && !es[place].Symlink? then Found(place) else Nothing
  {
    hide WellFormed;
    RootIsThere(es);
    for i := 0 to |place|
      invariant place[..i] in es && !es[place[..i]].Symlink?
      invariant forall n :: 0 < n <= i ==> !BarredAt(es, place, n)
    {
      var current := place[..i + 1];
      if current !in es {
        NothingBelow(es, place, i + 1);
        return Ok(Nothing);
      }
      if es[current].Symlink? {
        if i + 1 == |place| {
          assert current == place;
          return Ok(Nothing);
        }
        assert BarredAt(es, place, i + 1);
        return Err(SymlinkInPath);
      }
      if es[current].Dir? {
        if !es[current].ownerOnly {
          assert BarredAt(es, place, i + 1);
          return Err(NotPrivate);
        }
      } else if i + 1 < |place| {
        NothingInside(es, place, i + 1);
        return Ok(Nothing);
      }
    }
    assert place[..|place|] == place;
    return Ok(Found(place));
  }

  lemma RootIsThere(es: Entries)
    requires WellFormed(es)
    ensures [] in es && es[[]].Dir?
  {}

  lemma NothingBelow(es: Entries, p: Place, n: nat)
    requires WellFormed(es) && n <= |p| && p[..n] !in es
    ensures forall m :: n <= m <= |p| ==> p[..m] !in es
    ensures p !in es
  {
    forall m | n <= m <= |p| ensures p[..m] !in es {
      assert p[..m][..n] == p[..n];
      AboveIf(es, p[..m], n);
    }
    assert p[..|p|] == p;
  }

  lemma NothingInside(es: Entries, p: Place, n: nat)
    requires WellFormed(es) && n < |p| && p[..n] in es && !es[p[..n]].Dir?
    ensures forall m :: n < m <= |p| ==> p[..m] !in es
    ensures p !in es
  {
    forall m | n < m <= |p| ensures p[..m] !in es {
      assert p[..m][..n] == p[..n];
      AboveIf(es, p[..m], n);
    }
    assert p[..|p|] == p;
  }
}
