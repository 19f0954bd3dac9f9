/**
Listings in order: total orders, the order of keys, and pages of an ordered set.

S3 and the filesystem store both list keys in the order of their UTF-8 bytes, which is the order
of their Unicode scalar values.
*/
module Ordering {
  import opened Wrappers

  type Order<!T> = (T, T) -> bool

  ghost predicate IsTotalOrder<T(!new)>(less: Order<T>) {
    && (forall a :: !less(a, a))
    && (forall a, b, c :: less(a, b) && less(b, c) ==> less(a, c))
    && (forall a, b :: a == b || less(a, b) || less(b, a))
  }

  predicate KeyLess(a: string, b: string) {
    b != "" && (a == "" || a[0] < b[0] || (a[0] == b[0] && KeyLess(a[1..], b[1..])))
  }

  lemma {:induction false} KeyLessTransitive(a: string, b: string, c: string)
    requires KeyLess(a, b) && KeyLess(b, c)
    ensures KeyLess(a, c)
  {
    if a == "" || a[0] < b[0] || b[0] < c[0] {
    } else {
      KeyLessTransitive(a[1..], b[1..], c[1..]);
    }
  }

  lemma {:induction false} KeyLessTotal(a: string, b: string)
    ensures a == b || KeyLess(a, b) || KeyLess(b, a)
    ensures !KeyLess(a, a)
  {
    if a == "" {
    } else if b == "" || a[0] != b[0] {
      KeyLessTotal(a[1..], a[1..]);
    } else {
      KeyLessTotal(a[1..], b[1..]);
      assert a == [a[0]] + a[1..] && b == [b[0]] + b[1..];
    }
  }

  lemma KeysAreOrdered()
    ensures IsTotalOrder(KeyLess)
  {
    forall a, b ensures a == b || KeyLess(a, b) || KeyLess(b, a) { KeyLessTotal(a, b); }
    forall a ensures !KeyLess(a, a) { KeyLessTotal(a, a); }
    forall a, b, c | KeyLess(a, b) && KeyLess(b, c) ensures KeyLess(a, c) { KeyLessTransitive(a, b, c); }
  }

  /** By key first, by number next. */
  predicate PairLess(a: (string, nat), b: (string, nat)) {
    KeyLess(a.0, b.0) || (a.0 == b.0 && a.1 < b.1)
  }

  lemma PairsAreOrdered()
    ensures IsTotalOrder(PairLess)
    ensures forall a, b :: PairLess(a, b) ==> a.0 == b.0 || KeyLess(a.0, b.0)
  {
    KeysAreOrdered();
    hide KeyLess;
  }

  // ---- Pages. ----

  predicate IsLeast<T>(items: set<T>, less: Order<T>, x: T) {
    x in items && forall y :: y in items ==> !less(y, x)
  }

  lemma {:induction false} LeastExists<T(!new)>(items: set<T>, less: Order<T>)
    requires items != {} && IsTotalOrder(less)
    ensures exists x :: IsLeast(items, less, x)
    decreases |items|
  {
    var x :| x in items;
    var rest := items - {x};
    if rest == {} {
      forall y | y in items ensures y == x {
        assert y == x || y in rest;
      }
      assert IsLeast(items, less, x);
    } else {
      LeastExists(rest, less);
      var y :| IsLeast(rest, less, y);
      if less(x, y) {
        forall z | z in items ensures !less(z, x) {
          assert z == x || z in rest;
          assert less(z, x) ==> less(z, y);
        }
        assert IsLeast(items, less, x);
      } else {
        forall z | z in items ensures !less(z, y) { assert z == x || z in rest; }
        assert IsLeast(items, less, y);
      }
    }
  }

  ghost predicate Ascending<T>(s: seq<T>, less: Order<T>) {
    forall i, j :: 0 <= i < j < |s| ==> less(s[i], s[j])
  }

  /** What comes after `mark`, or everything. */
  function Beyond<T>(items: set<T>, less: Order<T>, mark: Option<T>): set<T> {
    set x | x in items && (mark.None? || less(mark.value, x))
  }

  /** The elements of a sequence. */
  function Elements<T>(s: seq<T>): set<T> {
    set x | x in s
  }

  /**
  The next page of an ordered listing: at most `max` items, in order, everything up to the last of
  them; the mark to go on from is given exactly when something is left.
  */
  method NextPage<T(==, !new)>(items: set<T>, less: Order<T>, after: Option<T>, max: nat)
    returns (page: seq<T>, next: Option<T>)
    requires IsTotalOrder(less) && max > 0
    ensures Ascending(page, less) && |page| <= max
    ensures forall x :: x in page ==> x in Beyond(items, less, after)
    ensures next.None? ==> Elements(page) == Beyond(items, less, after)
    ensures next.Some? ==>
              && page != [] && next.value == page[|page| - 1]
              && Elements(page) + Beyond(items, less, next) == Beyond(items, less, after)
              && forall x :: x in page ==> x !in Beyond(items, less, next)
  {
    page := [];
    var mark := after;
    while |page| < max && Beyond(items, less, mark) != {}
      invariant |page| <= max && Ascending(page, less)
      invariant page == [] ==> mark == after
      invariant page != [] ==> mark == Some(page[|page| - 1])
      invariant forall i :: 0 <= i < |page| ==> page[i] in Beyond(items, less, after)
      invariant Elements(page) + Beyond(items, less, mark) == Beyond(items, less, after)
      invariant forall i :: 0 <= i < |page| ==> page[i] !in Beyond(items, less, mark)
    {
      var rest := Beyond(items, less, mark);
      LeastExists(rest, less);
      var x :| IsLeast(rest, less, x);
      page := page + [x];
      mark := Some(x);
    }
    next := if Beyond(items, less, mark) == {} then None else mark;
  }

  /** An ascending sequence repeats nothing. */
  lemma {:induction false} AscendingIsDistinct<T(!new)>(s: seq<T>, less: Order<T>)
    requires Ascending(s, less) && IsTotalOrder(less)
    ensures |Elements(s)| == |s|
  {
    if s == [] {
      assert Elements(s) == {};
    } else {
      var rest := s[..|s| - 1];
      AscendingIsDistinct(rest, less);
      assert Elements(s) == Elements(rest) + {s[|s| - 1]};
      assert s[|s| - 1] !in rest;
    }
  }

  /** A common beginning does not change the order. */
  lemma {:induction false} OrderUnderPrefix(p: string, a: string, b: string)
    ensures KeyLess(p + a, p + b) <==> KeyLess(a, b)
  {
    if p == "" {
      assert p + a == a && p + b == b;
    } else {
      var x, y := p + a, p + b;
      assert x[1..] == p[1..] + a && y[1..] == p[1..] + b;
      assert x[0] == y[0] && (KeyLess(x, y) <==> KeyLess(x[1..], y[1..]));
      hide KeyLess;
      OrderUnderPrefix(p[1..], a, b);
    }
  }

  lemma SmallerSet<T>(a: set<T>, b: set<T>)
    requires a < b
    ensures |a| < |b|
  {
    var x :| x in b && x !in a;
    assert a <= b - {x};
    SubsetSize(a, b - {x});
  }

  lemma {:induction false} SubsetSize<T>(a: set<T>, b: set<T>)
    requires a <= b
    ensures |a| <= |b|
    decreases |a|
  {
    if a == {} {
    } else {
      var x :| x in a;
      SubsetSize(a - {x}, b - {x});
    }
  }
}
