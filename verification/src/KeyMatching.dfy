/**
Component-aligned prefix matching, and the paths keys are mapped to.
*/
module KeyMatching {
  import opened Keys

  /** Matching against a prefix that has lost its trailing `/`. */
  predicate KeyMatchesPrefix(key: string, prefix: string) {
    prefix == "" || Aligned(key, prefix)
  }

  /** `key` is `prefix` or continues it at a separator. */
  predicate Aligned(key: string, prefix: string) {
    prefix <= key && (|key| == |prefix| || key[|prefix|] == '/')
  }

  /** The string test is the list prefix order on components: `a/b` matches `a/b/c`, never `a/bc`. */
  lemma {:induction false} AlignedIsComponentPrefix(key: string, prefix: string)
    ensures Aligned(key, prefix) <==> Split(prefix) <= Split(key)
  {
    if prefix == "" {
      EmptyPrefix(key);
    } else if key != "" {
      var p, k := prefix[1..], key[1..];
      AlignedIsComponentPrefix(k, p);
      assert Aligned(key, prefix) <==> key[0] == prefix[0] && Aligned(k, p) by {
        assert prefix == [prefix[0]] + p && key == [key[0]] + k;
      }
      FirstCharacters(key, prefix);
    } else {
      assert Split(key) == [""];
      assert Split(prefix)[0] == "" ==> |Split(prefix)| > 1;
    }
  }

  lemma EmptyPrefix(key: string)
    ensures Aligned(key, "") <==> Split("") <= Split(key)
  {
    assert Split("") == [""];
    if key != "" {
      var rest := Split(key[1..]);
      if key[0] == '/' {
        assert Split(key) == [""] + rest;
      } else {
        assert Split(key)[0] == [key[0]] + rest[0];
      }
    }
  }

  lemma FirstCharacters(key: string, prefix: string)
    requires key != "" && prefix != ""
    ensures Split(prefix) <= Split(key) <==> key[0] == prefix[0] && Split(prefix[1..]) <= Split(key[1..])
  {
    var p, k := Split(prefix[1..]), Split(key[1..]);
    var x := if prefix[0] == '/' then "" else [prefix[0]] + p[0];
    var y := if key[0] == '/' then "" else [key[0]] + k[0];
    ConsPrefix(x, if prefix[0] == '/' then p else p[1..], y, if key[0] == '/' then k else k[1..]);
    if prefix[0] != '/' && key[0] != '/' {
      assert p == [p[0]] + p[1..] && k == [k[0]] + k[1..];
      ConsPrefix(p[0], p[1..], k[0], k[1..]);
      assert x == y <==> prefix[0] == key[0] && p[0] == k[0] by {
        assert x[1..] == p[0] && y[1..] == k[0];
      }
    }
  }

  lemma ConsPrefix<T>(x: T, p: seq<T>, y: T, k: seq<T>)
    ensures [x] + p <= [y] + k <==> x == y && p <= k
  {
    if [x] + p <= [y] + k {
      assert ([x] + p)[0] == ([y] + k)[0];
      forall i | 0 <= i < |p| ensures p[i] == k[i] {
        assert ([x] + p)[i + 1] == ([y] + k)[i + 1];
      }
    }
  }

  // ---- Matching is an order on keys. ----

  /** For prefixes as the stores use them, after normalization. */
  lemma MatchesIsComponentPrefix(key: string, prefix: string)
    ensures KeyMatchesPrefix(key, prefix) <==> prefix == "" || Split(prefix) <= Split(key)
  {
    AlignedIsComponentPrefix(key, prefix);
  }

  lemma MatchingIsAPartialOrder(a: string, b: string, c: string)
    ensures KeyMatchesPrefix(a, a)
    ensures KeyMatchesPrefix(a, b) && KeyMatchesPrefix(b, c) ==> KeyMatchesPrefix(a, c)
    ensures a != "" && b != "" && KeyMatchesPrefix(a, b) && KeyMatchesPrefix(b, a) ==> a == b
  {
    if c != "" && b != "" && KeyMatchesPrefix(a, b) && KeyMatchesPrefix(b, c) {
      AlignedIsComponentPrefix(a, b);
      AlignedIsComponentPrefix(b, c);
      AlignedIsComponentPrefix(a, c);
    }
  }

  /** In components: the keys under `prefix` are the ones that extend its list. */
  lemma MatchingByComponents(parts: seq<string>, prefix: seq<string>)
    requires |parts| > 0 && forall i :: 0 <= i < |parts| ==> SlashFree(parts[i])
    requires |prefix| > 0 && forall i :: 0 <= i < |prefix| ==> SlashFree(prefix[i])
    requires Join(prefix) != ""
    ensures KeyMatchesPrefix(Join(parts), Join(prefix)) <==> prefix <= parts
  {
    SplitOfJoin(parts);
    SplitOfJoin(prefix);
    MatchesIsComponentPrefix(Join(parts), Join(prefix));
  }

  // ---- Paths. ----

  type Path = seq<string>

  /** Where following `components` from `base` leads, as a path is read: `.` and the empty one stay, `..` goes up. */
  function Follow(base: Path, components: seq<string>): Path
    decreases |components|
  {
    if components == [] then base
    else
      var c := components[0];
      var next := if c == "" || c == "." then base
                  else if c == ".." then (if base == [] then [] else base[..|base| - 1])
                  else base + [c];
      Follow(next, components[1..])
  }

  function Resolve(root: Path, key: string): Path {
    Follow(root, Split(key))
  }

  lemma {:induction false} FollowPlainNames(base: Path, components: seq<string>)
    requires forall i :: 0 <= i < |components| ==> PlainName(components[i])
    ensures Follow(base, components) == base + components
    decreases |components|
  {
    if components == [] {
      assert base + components == base;
    } else {
      assert PlainName(components[0]);
      forall i | 0 <= i < |components[1..]| ensures PlainName(components[1..][i]) {
        assert components[1..][i] == components[i + 1];
      }
      FollowPlainNames(base + [components[0]], components[1..]);
      assert base + [components[0]] + components[1..] == base + components;
    }
  }

  /** A valid key leads strictly below the root, and no two valid keys lead to one place. */
  lemma ValidKeysStayBelowTheRoot(root: Path, key: string, other: string)
    requires ValidateKey(key).Ok?
    ensures root < Resolve(root, key)
    ensures ValidateKey(other).Ok? && Resolve(root, key) == Resolve(root, other) ==> key == other
  {
    ComponentsRule(Split(key));
    hide PlainName, ValidateComponents, Follow;
    FollowPlainNames(root, Split(key));
    if ValidateKey(other).Ok? && Resolve(root, key) == Resolve(root, other) {
      ComponentsRule(Split(other));
      FollowPlainNames(root, Split(other));
      assert Split(key) == Resolve(root, key)[|root|..] == Split(other);
      JoinOfSplit(key);
      JoinOfSplit(other);
    }
  }

  /** One object sits inside another's path exactly when its key matches the other's. */
  lemma NestingIsMatching(root: Path, key: string, other: string)
    requires ValidateKey(key).Ok? && ValidateKey(other).Ok?
    ensures Resolve(root, other) <= Resolve(root, key) <==> KeyMatchesPrefix(key, other)
  {
    MatchesIsComponentPrefix(key, other);
    ComponentsRule(Split(key));
    ComponentsRule(Split(other));
    hide PlainName, ValidateComponents, Follow, Split, Aligned;
    FollowPlainNames(root, Split(key));
    FollowPlainNames(root, Split(other));
    var a, b := Split(other), Split(key);
    if root + a <= root + b {
      assert a == (root + a)[|root|..] <= (root + b)[|root|..] == b;
    }
  }
}
