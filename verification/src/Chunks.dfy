/**
The chunker: a body that arrives in pieces of any size becomes parts of one size.
*/
module Chunks {
  import opened Wrappers

  newtype byte = x: int | 0 <= x < 0x100
  type Bytes = seq<byte>

  /** A body: the pieces its stream yields, an error being the last thing anybody reads of it. */
  type Stream<!E> = seq<Result<Bytes, E>>

  /** The bytes a reader gets before the stream ends or fails. */
  function Text<E>(body: Stream<E>): Bytes {
    if body == [] || body[0].Err? then [] else body[0].value + Text(body[1..])
  }

  function Fault<E>(body: Stream<E>): Option<E> {
    if body == [] then None
    else if body[0].Err? then Some(body[0].error)
    else Fault(body[1..])
  }

  /** What the chunker makes of `data` followed by the end of the stream or by `fault`. */
  function Output<E>(size: nat, data: Bytes, fault: Option<E>): Stream<E>
    requires size > 0
    decreases |data|
  {
    if |data| >= size then [Ok(data[..size])] + Output(size, data[size..], fault)
    else if fault.Some? then [Err(fault.value)]
    else if data == [] then []
    else [Ok(data)]
  }

  /** Chunks one after the other. */
  function Joined(chunks: seq<Bytes>): Bytes {
    if chunks == [] then [] else Joined(chunks[..|chunks| - 1]) + chunks[|chunks| - 1]
  }

  ghost predicate AllOk<E>(out: Stream<E>) {
    forall i :: 0 <= i < |out| ==> out[i].Ok?
  }

  /** The chunks of a stream without an error. */
  ghost function Values<E>(out: Stream<E>): seq<Bytes>
    requires AllOk(out)
  {
    seq(|out|, i requires 0 <= i < |out| => out[i].value)
  }

  class Chunker<!E(==)> {
    const size: nat
    var body: Stream<E>
    var buffer: Bytes
    var exhausted: bool
    /** An error or the end has been yielded. */
    var ended: bool

    ghost predicate Valid()
      reads this
    {
      size > 0 && (exhausted ==> body == [])
    }

    /** Everything still to come. */
    ghost function Remaining(): Stream<E>
      requires Valid()
      reads this
    {
      if ended then [] else Output(size, buffer + Text(body), Fault(body))
    }

    constructor (stream: Stream<E>, chunkSize: nat)
      requires chunkSize > 0
      ensures Valid() && size == chunkSize && Remaining() == Output(chunkSize, Text(stream), Fault(stream))
    {
      size, body, buffer, exhausted, ended := chunkSize, stream, [], false, false;
      new;
      assert [] + Text(stream) == Text(stream);
    }

    method Next() returns (r: Option<Result<Bytes, E>>)
      requires Valid()
      modifies this
      ensures Valid()
      ensures old(Remaining()) == if r.None? then [] else [r.value] + Remaining()
      ensures r.None? || r.value.Err? ==> Remaining() == []
    {
      if ended {
        return None;
      }
      while true
        invariant Valid() && !ended && Remaining() == old(Remaining())
        decreases !exhausted, |body|
      {
        if |buffer| >= size {
          var chunk := buffer[..size];
          assert (buffer + Text(body))[..size] == chunk;
          assert (buffer + Text(body))[size..] == buffer[size..] + Text(body);
          buffer := buffer[size..];
          return Some(Ok(chunk));
        }
        if exhausted {
          assert buffer + Text(body) == buffer;
          if buffer == [] {
            ended := true;
            return None;
          }
          var chunk := buffer;
          buffer := [];
          assert buffer + Text(body) == [];
          return Some(Ok(chunk));
        }
        if body == [] {
          exhausted := true;
        } else if body[0].Err? {
          assert buffer + Text(body) == buffer;
          ended := true;
          return Some(Err(body[0].error));
        } else {
          assert buffer + Text(body) == buffer + body[0].value + Text(body[1..]);
          buffer, body := buffer + body[0].value, body[1..];
        }
      }
    }
  }

  // ---- What the output is. ----

  lemma {:induction false} JoinedGrows(chunks: seq<Bytes>, n: nat)
    requires n < |chunks|
    ensures Joined(chunks[..n + 1]) == Joined(chunks[..n]) + chunks[n]
  {
    assert chunks[..n + 1][..n] == chunks[..n];
  }

  lemma {:induction false} JoinedFromTheFront(chunks: seq<Bytes>)
    requires chunks != []
    ensures Joined(chunks) == chunks[0] + Joined(chunks[1..])
  {
    var n := |chunks| - 1;
    if n == 0 {
    } else {
      var rest := chunks[1..];
      JoinedFromTheFront(chunks[..n]);
      assert chunks[..n][1..] == rest[..n - 1] && rest[n - 1] == chunks[n];
      assert Joined(rest) == Joined(rest[..n - 1]) + rest[n - 1];
    }
  }

  /** What a reader gets of a stream without an error is all of its chunks. */
  lemma {:induction false} TextIsJoined<E>(out: Stream<E>)
    requires AllOk(out)
    ensures Text(out) == Joined(Values(out)) && Fault(out).None?
  {
    if out == [] {
    } else {
      TextIsJoined(out[1..]);
      JoinedFromTheFront(Values(out));
      assert Values(out)[1..] == Values(out[1..]);
    }
  }

  function CeilDiv(n: nat, size: nat): (k: nat)
    requires size > 0
  {
    (n + size - 1) / size
  }

  /**
  With no error: the chunks join up to the data, all but the last have exactly `size` bytes, the
  last is not empty, and there are as many as it takes.
  */
  lemma {:induction false} WholeBody<E>(size: nat, data: Bytes)
    requires size > 0
    ensures var out := Output<E>(size, data, None);
            && Text(out) == data && Fault(out) == None
            && |out| == CeilDiv(|data|, size)
            && (forall i :: 0 <= i < |out| ==> out[i].Ok? && 0 < |out[i].value| <= size)
            && (forall i :: 0 <= i < |out| - 1 ==> |out[i].value| == size)
    decreases |data|
  {
    var out := Output<E>(size, data, None);
    if |data| >= size {
      WholeBody<E>(size, data[size..]);
      var rest := Output<E>(size, data[size..], None);
      assert out == [Ok(data[..size])] + rest && out[1..] == rest;
      assert data == data[..size] + data[size..];
      OneMore(|data|, size);
      assert forall i :: 0 < i < |out| ==> out[i] == rest[i - 1];
    } else if data != [] {
      assert out[1..] == [];
      assert CeilDiv(|data|, size) == 1 by { OneChunk(|data|, size); }
    } else {
      assert CeilDiv(0, size) == 0 by { NoChunk(size); }
    }
  }

  lemma OneMore(n: nat, size: nat)
    requires size > 0 && n >= size
    ensures CeilDiv(n, size) == 1 + CeilDiv(n - size, size)
  {
    Shift(n + size - 1, size);
  }

  lemma QuotientIs(m: nat, size: nat, q: nat, r: nat)
    requires r < size && m == q * size + r
    ensures m / size == q
  {
    var k, rest := m / size, m % size;
    Unique(size, q, r, k, rest);
  }

  lemma Unique(size: nat, q: nat, r: nat, k: nat, rest: nat)
    requires r < size && rest < size && q * size + r == k * size + rest
    ensures q == k
  {
    if q < k { Multiples(q, k, size); }
    if k < q { Multiples(k, q, size); }
  }

  lemma {:induction false} Multiples(a: nat, b: nat, size: nat)
    requires a < b
    ensures a * size + size <= b * size
  {
    assert b * size == (b - 1) * size + size;
    if a + 1 == b {
    } else {
      Multiples(a, b - 1, size);
    }
  }

  lemma Shift(m: nat, size: nat)
    requires size > 0 && m >= size
    ensures m / size == 1 + (m - size) / size
  {
    var q, r := (m - size) / size, (m - size) % size;
    assert (q + 1) * size == q * size + size;
    QuotientIs(m, size, q + 1, r);
  }

  /** The whole chunks of `n` bytes are one and those of the rest. */
  lemma WholeChunks(n: nat, size: nat)
    requires size > 0
    ensures (n / size) * size <= n
    ensures n >= size ==> n / size == 1 + (n - size) / size && (n / size) * size == size + ((n - size) / size) * size
  {
    if n >= size {
      Shift(n, size);
      var q := (n - size) / size;
      assert (1 + q) * size == size + q * size;
    }
  }

  lemma OneChunk(n: nat, size: nat)
    requires 0 < n <= size
    ensures CeilDiv(n, size) == 1
  {
    Shift(n + size - 1, size);
    Small(n - 1, size);
  }

  lemma NoChunk(size: nat)
    requires size > 0
    ensures CeilDiv(0, size) == 0
  {
    Small(size - 1, size);
  }

  lemma Small(m: nat, size: nat)
    requires m < size
    ensures m / size == 0
  {
    QuotientIs(m, size, 0, m);
  }

  /** With an error after `data`: the whole chunks before it, all of `size` bytes, then the error. */
  lemma {:induction false} BrokenBody<E>(size: nat, data: Bytes, e: E)
    requires size > 0
    ensures var out, n := Output(size, data, Some(e)), |data| / size;
            && |out| == n + 1 && out[n] == Err(e) && n * size <= |data|
            && Text(out) == data[..n * size] && Fault(out) == Some(e)
            && forall i :: 0 <= i < n ==> out[i].Ok? && |out[i].value| == size
    decreases |data|
  {
    var out, n := Output(size, data, Some(e)), |data| / size;
    WholeChunks(|data|, size);
    if |data| >= size {
      var left := data[size..];
      BrokenBody(size, left, e);
      var rest, k, whole := Output(size, left, Some(e)), |left| / size, (|left| / size) * size;
      assert out == [Ok(data[..size])] + rest && out[1..] == rest;
      assert data[..size + whole] == data[..size] + left[..whole];
      assert forall i :: 0 < i < |out| ==> out[i] == rest[i - 1];
    } else {
      Small(|data|, size);
    }
  }
}
