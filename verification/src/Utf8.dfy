/**
The UTF-8 encoding of section 3 of RFC 3629, and the order it gives strings: comparing strings by
their bytes is comparing them by their Unicode scalar values.
*/
module Utf8 {
  import opened Ordering

  /** A byte that continues a character: six bits below the mark. */
  function Tail(n: nat): nat {
    0x80 + n % 0x40
  }

  function EncodeChar(c: char): seq<nat> {
    var n := c as int;
    if n < 0x80 then [n]
    else if n < 0x800 then [0xC0 + n / 0x40, Tail(n)]
    else if n < 0x1_0000 then [0xE0 + n / 0x1000, Tail(n / 0x40), Tail(n)]
    else [0xF0 + n / 0x4_0000, Tail(n / 0x1000), Tail(n / 0x40), Tail(n)]
  }

  function Encode(s: string): seq<nat> {
    if s == "" then [] else EncodeChar(s[0]) + Encode(s[1..])
  }

  // ---- Lexicographic order, by positions. ----

  /** `a` and `b` first differ at `n`, where `a` has the lesser element. */
  ghost predicate LessAt(a: seq<nat>, b: seq<nat>, n: nat) {
    n < |a| && n < |b| && a[..n] == b[..n] && a[n] < b[n]
  }

  ghost predicate BytesLess(a: seq<nat>, b: seq<nat>) {
    a < b || exists n: nat :: LessAt(a, b, n)
  }

  /** `a` and `b` first differ at `n`, where `a` has the lesser character. */
  ghost predicate CharLessAt(a: string, b: string, n: nat) {
    n < |a| && n < |b| && a[..n] == b[..n] && a[n] < b[n]
  }

  /** The order of keys is lexicographic: a proper beginning first, else the first difference decides. */
  lemma {:induction false} KeyLessByPosition(a: string, b: string)
    ensures KeyLess(a, b) <==> a < b || exists n: nat :: CharLessAt(a, b, n)
  {
    if a == "" || b == "" {
    } else if a[0] != b[0] {
      if a[0] < b[0] { assert CharLessAt(a, b, 0); }
      forall n: nat | 0 < n < |a| && n < |b| ensures a[..n] != b[..n] { assert a[..n][0] != b[..n][0]; }
    } else {
      KeyLessByPosition(a[1..], b[1..]);
      assert a[1..] < b[1..] <==> a < b by { assert a == [a[0]] + a[1..] && b == [b[0]] + b[1..]; }
      forall n: nat | CharLessAt(a[1..], b[1..], n) ensures CharLessAt(a, b, n + 1) {
        assert a[..n + 1] == [a[0]] + a[1..][..n] && b[..n + 1] == [b[0]] + b[1..][..n];
      }
      forall n: nat | CharLessAt(a, b, n) ensures n > 0 && CharLessAt(a[1..], b[1..], n - 1) {
        assert a[1..][..n - 1] == a[..n][1..] && b[1..][..n - 1] == b[..n][1..];
      }
    }
  }

  // ---- The encoding keeps the order. ----

  lemma Lower(x: nat, y: nat)
    requires x < y
    ensures x / 0x40 < y / 0x40 || (x / 0x40 == y / 0x40 && Tail(x) < Tail(y))
  {
  }

  lemma Quotients(n: nat)
    ensures n / 0x40 / 0x40 == n / 0x1000 && n / 0x1000 / 0x40 == n / 0x4_0000
  {
    ByEights(n, 0x40);
    ByEights(n, 0x1000);
  }

  lemma ByEights(n: nat, q: nat)
    requires q == 0x40 || q == 0x1000
    ensures n / q / 0x40 == n / (q * 0x40)
  {
    var a, b := n / (q * 0x40), n % (q * 0x40);
    assert n == a * (q * 0x40) + b;
    if q == 0x40 {
      assert n / 0x40 == a * 0x40 + b / 0x40;
    } else {
      assert n / 0x1000 == a * 0x40 + b / 0x1000;
    }
  }

  lemma EarlierOfTwo(x: nat, y: nat) returns (n: nat)
    requires x < y
    ensures LessAt([0xC0 + x / 0x40, Tail(x)], [0xC0 + y / 0x40, Tail(y)], n)
  {
    Lower(x, y);
    hide Tail;
    n := if x / 0x40 == y / 0x40 then 1 else 0;
  }

  lemma EarlierOfThree(x: nat, y: nat) returns (n: nat)
    requires x < y
    ensures LessAt([0xE0 + x / 0x1000, Tail(x / 0x40), Tail(x)], [0xE0 + y / 0x1000, Tail(y / 0x40), Tail(y)], n)
  {
    Quotients(x);
    Quotients(y);
    Lower(x, y);
    if x / 0x40 == y / 0x40 {
      n := 2;
    } else {
      Lower(x / 0x40, y / 0x40);
      hide Tail;
      n := if x / 0x1000 == y / 0x1000 then 1 else 0;
    }
  }

  lemma EarlierOfFour(x: nat, y: nat) returns (n: nat)
    requires x < y
    ensures LessAt([0xF0 + x / 0x4_0000, Tail(x / 0x1000), Tail(x / 0x40), Tail(x)],
                   [0xF0 + y / 0x4_0000, Tail(y / 0x1000), Tail(y / 0x40), Tail(y)], n)
  {
    Quotients(x);
    Quotients(y);
    Lower(x, y);
    if x / 0x40 == y / 0x40 {
      n := 3;
    } else {
      Lower(x / 0x40, y / 0x40);
      if x / 0x1000 == y / 0x1000 {
        n := 2;
      } else {
        Lower(x / 0x1000, y / 0x1000);
        hide Tail;
        n := if x / 0x4_0000 == y / 0x4_0000 then 1 else 0;
      }
    }
  }

  /** Of two characters encoded in as many bytes, the first byte that differs decides. */
  lemma EarlierOfSameWidth(c: char, d: char) returns (n: nat)
    requires c < d && |EncodeChar(c)| == |EncodeChar(d)|
    ensures LessAt(EncodeChar(c), EncodeChar(d), n)
  {
    hide Tail;
    match |EncodeChar(c)|
    case 1 => n := 0;
    case 2 => n := EarlierOfTwo(c as int, d as int);
    case 3 => n := EarlierOfThree(c as int, d as int);
    case _ => n := EarlierOfFour(c as int, d as int);
  }

  lemma WiderIsLater(c: char, d: char)
    requires c < d && |EncodeChar(c)| != |EncodeChar(d)|
    ensures LessAt(EncodeChar(c), EncodeChar(d), 0)
  {
  }

  /** Of two different strings of one character, the first byte that differs decides. */
  lemma EarlierChar(c: char, d: char) returns (n: nat)
    requires c < d
    ensures LessAt(EncodeChar(c), EncodeChar(d), n)
  {
    if |EncodeChar(c)| == |EncodeChar(d)| {
      n := EarlierOfSameWidth(c, d);
    } else {
      WiderIsLater(c, d);
      n := 0;
    }
  }

  lemma LessAtExtends(a: seq<nat>, b: seq<nat>, x: seq<nat>, y: seq<nat>, n: nat)
    requires LessAt(a, b, n)
    ensures LessAt(a + x, b + y, n)
  {
    assert (a + x)[..n] == a[..n] && (b + y)[..n] == b[..n];
  }

  /** A common beginning does not change the order of bytes. */
  lemma SameStart(p: seq<nat>, a: seq<nat>, b: seq<nat>)
    ensures BytesLess(p + a, p + b) <==> BytesLess(a, b)
  {
    assert p + a < p + b <==> a < b by {
      assert (p + a)[|p|..] == a && (p + b)[|p|..] == b;
      if p + a < p + b { assert a == ((p + b)[..|p + a|])[|p|..] == b[..|a|]; }
      if a < b { assert p + b == p + a + b[|a|..]; }
    }
    forall n: nat | LessAt(a, b, n) ensures LessAt(p + a, p + b, |p| + n) {
      assert (p + a)[..|p| + n] == p + a[..n] && (p + b)[..|p| + n] == p + b[..n];
    }
    forall n: nat | LessAt(p + a, p + b, n) ensures n >= |p| && LessAt(a, b, n - |p|) {
      if n >= |p| { assert a[..n - |p|] == (p + a)[..n][|p|..] && b[..n - |p|] == (p + b)[..n][|p|..]; }
    }
  }

  lemma OneWay(a: seq<nat>, b: seq<nat>, n: nat, m: nat)
    requires LessAt(a, b, n)
    ensures !LessAt(b, a, m)
  {
    if m < n {
      assert a[..n][m] == b[..n][m];
    } else if n < m <= |a| && m <= |b| {
      assert a[..m][n] != b[..m][n];
    }
  }

  /** Two byte strings that differ at `n` are ordered as they are there. */
  lemma DecidedAt(a: seq<nat>, b: seq<nat>, n: nat)
    requires LessAt(a, b, n)
    ensures BytesLess(a, b) && !BytesLess(b, a) && a != b
  {
    forall m: nat ensures !LessAt(b, a, m) { OneWay(a, b, n, m); }
    assert |b| <= |a| ==> a[..|b|][n] != b[n];
  }

  /** The order of keys is the order of their UTF-8 bytes. */
  lemma {:induction false} KeyLessIsByteOrder(a: string, b: string)
    ensures KeyLess(a, b) <==> BytesLess(Encode(a), Encode(b))
  {
    if a == "" || b == "" {
    } else if a[0] == b[0] {
      KeyLessIsByteOrder(a[1..], b[1..]);
      SameStart(EncodeChar(a[0]), Encode(a[1..]), Encode(b[1..]));
    } else {
      var x, y := EncodeChar(a[0]), EncodeChar(b[0]);
      if a[0] < b[0] {
        var n := EarlierChar(a[0], b[0]);
        LessAtExtends(x, y, Encode(a[1..]), Encode(b[1..]), n);
        DecidedAt(Encode(a), Encode(b), n);
      } else {
        var n := EarlierChar(b[0], a[0]);
        LessAtExtends(y, x, Encode(b[1..]), Encode(a[1..]), n);
        DecidedAt(Encode(b), Encode(a), n);
      }
    }
  }
}
