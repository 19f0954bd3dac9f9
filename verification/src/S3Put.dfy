/**
`put` and `put_if_absent` of the S3 store, run against a bucket with every request free to fail.
*/
module S3Put {
  import opened Wrappers
  import opened Keys
  import opened S3Keys
  import opened Chunks
  import opened S3Bucket

  const CONDITIONAL_RETRIES := 8

  datatype StoreError =
    | InvalidKey(rule: KeyError)
    | BodyFailed(code: nat)
    | TooManyParts
    | RequestFailed(error: SdkError)
    | KeysNotDeleted(failed: nat, requested: nat)

  datatype ObjectMeta = ObjectMeta(key: string, size: nat)

  function Pow2(n: nat): nat {
    if n == 0 then 1 else 2 * Pow2(n - 1)
  }

  /** Milliseconds before retry `attempt`, counted from one. */
  function ConditionalBackoff(attempt: nat): nat {
    50 * Pow2(if attempt < 5 then attempt else 5)
  }

  function TotalBackoff(attempts: nat): nat {
    if attempts == 0 then 0 else TotalBackoff(attempts - 1) + ConditionalBackoff(attempts)
  }

  lemma OneMoreWait(attempts: nat)
    ensures TotalBackoff(0) == 0
    ensures TotalBackoff(attempts + 1) == TotalBackoff(attempts) + ConditionalBackoff(attempts + 1)
  {
  }

  /** The waits double from 100 ms to 1.6 s; all eight take 7.9 s. */
  lemma BackoffTotals(attempts: nat)
    requires attempts <= CONDITIONAL_RETRIES
    ensures ConditionalBackoff(1) == 100 && (attempts >= 5 ==> ConditionalBackoff(attempts) == 1600)
    ensures 1 <= attempts < 5 ==> ConditionalBackoff(attempts + 1) == 2 * ConditionalBackoff(attempts)
    ensures TotalBackoff(attempts) <= TotalBackoff(CONDITIONAL_RETRIES) == 7900
    ensures 1 <= attempts ==> 100 <= ConditionalBackoff(attempts) <= 1600
  {
    assert Pow2(1) == 2 && Pow2(2) == 4 && Pow2(3) == 8 && Pow2(4) == 16 && Pow2(5) == 32;
    assert TotalBackoff(1) == 100 && TotalBackoff(2) == 300 && TotalBackoff(3) == 700;
    assert TotalBackoff(4) == 1500 && TotalBackoff(5) == 3100 && TotalBackoff(6) == 4700;
    assert TotalBackoff(7) == 6300 && TotalBackoff(8) == 7900;
  }

  /** The server refuses the request because another conditional write is in its way. */
  ghost predicate Clashes(fate: Fate) {
    fate.Fails? && fate.error.Service? && fate.error.code == Some("ConditionalRequestConflict")
  }

  /** Requests `from` to `from + k - 1` are so refused. */
  ghost predicate Clashing(net: nat -> Fate, from: nat, k: nat) {
    forall i :: from <= i < from + k ==> Clashes(net(i))
  }

  lemma OneMoreClash(net: nat -> Fate, from: nat, k: nat)
    ensures Clashing(net, from, k + 1) <==> Clashing(net, from, k) && Clashes(net(from + k))
  {
  }

  /**
  What a loop that re-sends a conditional write after a conflict ends with, having sent `n`
  requests: after `k` conflicts a request that is served decides, true unless a conditional one
  found the key occupied; nine conflicts are an error, and so is any other failure at once.
  */
  ghost predicate Decided(
      net: nat -> Fate, from: nat, n: nat, ifNoneMatch: bool, occupied: bool, r: Result<bool, StoreError>)
  {
    && (forall k: nat ::
          k <= 8 && (k > 0 ==> ifNoneMatch) && Clashing(net, from, k) && net(from + k).Served? ==>
            r == Ok(!(ifNoneMatch && occupied)) && n == k + 1)
    && (ifNoneMatch && Clashing(net, from, 9) ==> r == Err(RequestFailed(net(from + 8).error)) && n == 9)
    && (net(from).Fails? && !(ifNoneMatch && Clashes(net(from))) ==>
          r == Err(RequestFailed(net(from).error)) && n == 1)
  }

  /** The first `k` requests met no answer that decides. */
  ghost predicate Undecided(net: nat -> Fate, from: nat, k: nat) {
    && (forall i :: from <= i < from + k ==> !net(i).Served?)
    && (k > 0 && net(from).Fails? ==> Clashes(net(from)))
  }

  lemma DecidedHere(
      net: nat -> Fate, from: nat, k: nat, ifNoneMatch: bool, occupied: bool, r: Result<bool, StoreError>)
    requires Undecided(net, from, k) && k <= 8 && (k > 0 ==> ifNoneMatch)
    requires Clashing(net, from, k) && net(from + k).Served? ==> r == Ok(!(ifNoneMatch && occupied))
    requires net(from + k).Fails? ==> r == Err(RequestFailed(net(from + k).error))
    requires ifNoneMatch && Clashes(net(from + k)) ==> k == 8
    ensures Decided(net, from, k + 1, ifNoneMatch, occupied, r)
  {
    if ifNoneMatch && Clashing(net, from, 9) { assert Clashes(net(from + k)); }
    forall j: nat | k < j && Clashing(net, from, j) ensures Clashes(net(from + k)) {}
  }

  /** Every request from number `from` on is served. */
  ghost predicate AllServed(net: nat -> Fate, from: nat) {
    forall i :: from <= i ==> net(i).Served?
  }

  /** The requests that upload `chunks` as parts numbered from one. */
  function PartRequests(id: nat, chunks: seq<Bytes>): seq<Request> {
    seq(|chunks|, i requires 0 <= i < |chunks| => Part(id, i + 1, chunks[i]))
  }

  lemma {:induction false} TextGrows(out: Stream<StoreError>, n: nat)
    requires n < |out| && AllOk(out[..n + 1])
    ensures AllOk(out[..n]) && Text(out[..n + 1]) == Text(out[..n]) + out[n].value
  {
    assert AllOk(out[..n]) by {
      forall i | 0 <= i < n ensures out[..n][i].Ok? { assert out[..n + 1][i].Ok?; }
    }
    assert out[0] == out[..n + 1][0];
    if n > 0 {
      var rest := out[1..];
      assert out[..n + 1][1..] == rest[..n] && out[..n][1..] == rest[..n - 1];
      forall i | 0 <= i < n ensures rest[..n][i].Ok? { assert out[..n + 1][i + 1].Ok?; }
      TextGrows(rest, n - 1);
    } else {
      assert out[..1][1..] == [];
    }
  }

  lemma {:induction false} HasFault(out: Stream<StoreError>, n: nat)
    requires n < |out| && out[n].Err?
    ensures Fault(out).Some? && !AllOk(out)
    ensures AllOk(out[..n]) ==> Fault(out) == Some(out[n].error)
  {
    if n == 0 {
    } else {
      assert AllOk(out[..n]) ==> out[..n][0].Ok? && AllOk(out[1..][..n - 1]) by {
        assert out[1..][..n - 1] == out[..n][1..];
      }
      HasFault(out[1..], n - 1);
    }
  }

  lemma FirstFault(out: Stream<StoreError>, n: nat)
    requires n < |out| && out[n].Err? && n <= 1 && (n == 1 ==> out[0].Ok?)
    ensures Fault(out) == Some(out[n].error) && !AllOk(out)
  {
    HasFault(out, n);
  }

  lemma {:induction false} NoFault(out: Stream<StoreError>)
    requires AllOk(out)
    ensures Fault(out).None?
  {
    if out == [] {
    } else {
      NoFault(out[1..]);
    }
  }

  lemma {:induction false} AssembleGrows(parts: map<nat, Bytes>, m: nat, n: nat, body: Bytes)
    requires m <= n && HasParts(parts, m)
    ensures HasParts(parts[n + 1 := body], m) && Assemble(parts[n + 1 := body], m) == Assemble(parts, m)
    ensures m == n ==>
              && HasParts(parts[n + 1 := body], n + 1)
              && Assemble(parts[n + 1 := body], n + 1) == Assemble(parts, n) + body
  {
    if m == 0 {
    } else {
      AssembleGrows(parts, m - 1, n, body);
    }
  }

  /** The first `n` of the chunks, `size` bytes in all, are the parts of upload `id`. */
  ghost predicate Uploaded(
      id: nat, parts: map<nat, Bytes>, out: Stream<StoreError>, n: nat, size: nat,
      before: seq<Request>, sent: seq<Request>)
  {
    && n <= |out| && AllOk(out[..n]) && size == |Text(out[..n])|
    && HasParts(parts, n) && Assemble(parts, n) == Text(out[..n])
    && sent == before + PartRequests(id, Values(out[..n]))
  }

  lemma OneMorePart(
      id: nat, parts: map<nat, Bytes>, out: Stream<StoreError>, n: nat, size: nat,
      before: seq<Request>, sent: seq<Request>)
    requires Uploaded(id, parts, out, n, size, before, sent) && n < |out| && out[n].Ok?
    ensures var body := out[n].value;
            Uploaded(id, parts[n + 1 := body], out, n + 1, size + |body|, before, sent + [Part(id, n + 1, body)])
  {
    var body := out[n].value;
    var longer := out[..n + 1];
    forall i | 0 <= i < |longer| ensures longer[i].Ok? {
      if i < n { assert out[..n][i].Ok?; }
    }
    TextGrows(out, n);
    AssembleGrows(parts, n, n, body);
    assert Values(out[..n + 1]) == Values(out[..n]) + [body];
    assert PartRequests(id, Values(out[..n + 1])) == PartRequests(id, Values(out[..n])) + [Part(id, n + 1, body)];
  }

  lemma NoParts(id: nat, out: Stream<StoreError>, before: seq<Request>)
    ensures Uploaded(id, map[], out, 0, 0, before, before)
  {
    assert out[..0] == [] && before == before + [];
  }

  /** If every request is served, parts that are few enough are sent, and an error says what was wrong. */
  ghost predicate EndsAsItMust<T>(
      net: nat -> Fate, from: nat, max: nat, out: Stream<StoreError>, r: Result<T, StoreError>)
  {
    AllServed(net, from) ==>
      && (AllOk(out) && |out| <= max ==> r.Ok?)
      && (AllOk(out) && |out| > max ==> r == Err(TooManyParts))
      && (Fault(out).Some? && |out| <= max + 1 ==> r == Err(Fault(out).value))
  }

  /** The loop over the parts stops at part `n`. */
  lemma StopsAt(
      net: nat -> Fate, from: nat, max: nat, id: nat, parts: map<nat, Bytes>, out: Stream<StoreError>, n: nat,
      size: nat, before: seq<Request>, sent: seq<Request>)
    requires Uploaded(id, parts, out, n, size, before, sent) && n < |out| && n <= max
    ensures out[n].Err? ==> EndsAsItMust<(nat, nat)>(net, from, max, out, Err(out[n].error))
    ensures out[n].Ok? && n == max ==> EndsAsItMust<(nat, nat)>(net, from, max, out, Err(TooManyParts))
  {
    if out[n].Err? {
      HasFault(out, n);
    } else if |out| == n + 1 {
      assert out == out[..n] + [out[n]];
      NoFault(out);
    }
  }

  lemma AllSent<T>(net: nat -> Fate, from: nat, max: nat, out: Stream<StoreError>, r: Result<T, StoreError>)
    requires AllOk(out) && |out| <= max && r.Ok?
    ensures EndsAsItMust(net, from, max, out, r)
  {
    NoFault(out);
  }

  lemma NotServed(net: nat -> Fate, from: nat, i: nat, max: nat, out: Stream<StoreError>, e: StoreError)
    requires from <= i && !net(i).Served?
    ensures EndsAsItMust<(nat, nat)>(net, from, max, out, Err(e))
  {
  }

  lemma AllParts(
      id: nat, parts: map<nat, Bytes>, out: Stream<StoreError>, size: nat, before: seq<Request>, sent: seq<Request>)
    requires Uploaded(id, parts, out, |out|, size, before, sent)
    ensures AllOk(out) && Fault(out).None? && size == |Text(out)|
    ensures HasParts(parts, |out|) && Assemble(parts, |out|) == Text(out)
    ensures sent == before + PartRequests(id, Values(out))
  {
    assert out[..|out|] == out;
    NoFault(out);
  }

  /** `now` differs from `before` at most in the parts of upload `id`. */
  ghost predicate OnlyOne(before: map<nat, Upload>, now: map<nat, Upload>, id: nat)
    ensures OnlyOne(before, now, id) ==> id in now
  {
    && now.Keys == before.Keys && id in now && now[id].key == before[id].key
    && forall u :: u in now && u != id ==> now[u] == before[u]
  }

  lemma Itself(uploads: map<nat, Upload>, id: nat)
    requires id in uploads
    ensures OnlyOne(uploads, uploads, id)
  {}

  /** `data` in parts of `size` bytes, the last one shorter if need be. */
  ghost function PartsOf(size: nat, data: Bytes): seq<Bytes>
    requires size > 0
  {
    WholeBody<StoreError>(size, data);
    Values(Output<StoreError>(size, data, None))
  }

  /**
  The parts of a body under an accepted configuration: joined they are the body, there are as many
  as it takes, every one but the last has a size S3 accepts for such a part, and the last is no
  longer.
  */
  lemma PartsWithinLimits(config: S3Config, data: Bytes)
    requires CheckConfig(config).Ok? && data != []
    ensures var parts := PartsOf(config.partSize, data);
            && Joined(parts) == data && |parts| == CeilDiv(|data|, config.partSize) > 0
            && (forall i :: 0 <= i < |parts| - 1 ==> MIN_PART_SIZE <= |parts[i]| == config.partSize <= MAX_PART_SIZE)
            && 0 < |parts[|parts| - 1]| <= config.partSize
  {
    WholeBody<StoreError>(config.partSize, data);
    TextIsJoined(Output<StoreError>(config.partSize, data, None));
    hide CheckConfig, Output, Joined;
  }

  /** What the chunker makes of a body, told by its text and its end. */
  lemma ChunksOf(size: nat, body: Stream<StoreError>)
    requires size > 0
    ensures var out := Output(size, Text(body), Fault(body));
            && Fault(out) == Fault(body)
            && (AllOk(out) <==> Fault(body).None?)
            && (Fault(body).None? ==>
                  && AllOk(out) && Text(out) == Text(body) && |out| == CeilDiv(|Text(body)|, size)
                  && Values(out) == PartsOf(size, Text(body)))
            && (Fault(body).None? ==> (|out| <= 1 <==> |Text(body)| <= size))
            && (Fault(body).Some? ==> |out| == |Text(body)| / size + 1)
  {
    match Fault(body)
    case Some(e) =>
      BrokenBody(size, Text(body), e);
      assert !AllOk(Output(size, Text(body), Fault(body)));
    case None =>
      WholeBody<StoreError>(size, Text(body));
      AtMostOne(size, Text(body));
  }

  lemma AtMostOne(size: nat, data: Bytes)
    requires size > 0
    ensures |Output<StoreError>(size, data, None)| <= 1 <==> |data| <= size
  {
    if |data| > size {
      assert |Output<StoreError>(size, data[size..], None)| > 0;
    } else if |data| == size {
      assert data[size..] == [];
    }
  }

  /** The answer without the key. */
  function Sized(r: Result<Option<ObjectMeta>, StoreError>): Result<Option<nat>, StoreError> {
    if r.Err? then Err(r.error) else if r.value.None? then Ok(None) else Ok(Some(r.value.value.size))
  }

  /** What a put answers when nothing fails: its size, or none if it is conditional and found an object. */
  function Success(ifNoneMatch: bool, occupied: bool, size: nat): Result<Option<nat>, StoreError> {
    Ok(if ifNoneMatch && occupied then None else Some(size))
  }

  /** If every request is served, a put in parts succeeds unless there are too many or the body fails. */
  ghost predicate PutEnds(net: nat -> Fate, from: nat, max: nat, out: Stream<StoreError>, ifNoneMatch: bool,
                          occupied: bool, r: Result<Option<nat>, StoreError>)
  {
    AllServed(net, from) ==>
      && (AllOk(out) && |out| <= max ==> r == Success(ifNoneMatch, occupied, |Text(out)|))
      && (AllOk(out) && |out| > max ==> r == Err(TooManyParts))
      && (Fault(out).Some? && |out| <= max + 1 ==> r == Err(Fault(out).value))
  }

  lemma PutEndsEarly(net: nat -> Fate, from: nat, max: nat, out: Stream<StoreError>, ifNoneMatch: bool,
                     occupied: bool, uploaded: Result<(nat, nat), StoreError>)
    requires EndsAsItMust(net, from, max, out, uploaded) && uploaded.Err?
    ensures PutEnds(net, from, max, out, ifNoneMatch, occupied, Err(uploaded.error))
  {
    hide Fault, AllOk, Text;
  }

  lemma PutEndsLate(net: nat -> Fate, from: nat, at: nat, k: nat, max: nat, out: Stream<StoreError>, ifNoneMatch: bool,
                    occupied: bool, completed: Result<bool, StoreError>, r: Result<Option<nat>, StoreError>)
    requires from <= at && Decided(net, at, k, ifNoneMatch, occupied, completed) && AllOk(out) && |out| <= max
    requires r == if completed.Err? then Err(completed.error)
                  else if completed.value then Ok(Some(|Text(out)|)) else Ok(None)
    ensures PutEnds(net, from, max, out, ifNoneMatch, occupied, r)
  {
    NoFault(out);
    hide Text;
    if AllServed(net, from) {
      assert Clashing(net, at, 0) && net(at + 0).Served?;
    }
  }

  /**
  What a put of `body` ends with. If the body fits one part, the first request alone decides when it
  is served, and nine conflicts are an error. If every request is served: the size, or none for a
  conditional put of an occupied key; too many parts and a body that fails are errors that say so.
  */
  ghost predicate BodyEnds(net: nat -> Fate, from: nat, size: nat, max: nat, body: Stream<StoreError>,
                           ifNoneMatch: bool, occupied: bool, r: Result<Option<nat>, StoreError>)
    requires size > 0
  {
    var data, fault := Text(body), Fault(body);
    && (fault.None? && |data| <= size && net(from).Served? ==> r == Success(ifNoneMatch, occupied, |data|))
    && (fault.None? && |data| <= size && ifNoneMatch && Clashing(net, from, 9) ==>
          r == Err(RequestFailed(net(from + 8).error)))
    && (AllServed(net, from) ==>
          && (fault.None? && (|data| <= size || CeilDiv(|data|, size) <= max) ==>
                r == Success(ifNoneMatch, occupied, |data|))
          && (fault.None? && |data| > size && CeilDiv(|data|, size) > max ==> r == Err(TooManyParts))
          && (fault.Some? && |data| / size <= max ==> r == Err(fault.value)))
  }

  lemma EndsInParts(net: nat -> Fate, from: nat, size: nat, max: nat, body: Stream<StoreError>,
                    ifNoneMatch: bool, occupied: bool, r: Result<Option<nat>, StoreError>)
    requires size > 0 && |Output(size, Text(body), Fault(body))| > 1
    requires PutEnds(net, from, max, Output(size, Text(body), Fault(body)), ifNoneMatch, occupied, r)
    ensures BodyEnds(net, from, size, max, body, ifNoneMatch, occupied, r)
  {
    ChunksOf(size, body);
    hide Output, Text, Fault, AllOk, CeilDiv, Clashing, Values, PartsOf;
  }

  lemma EndsAtOnce(net: nat -> Fate, from: nat, size: nat, max: nat, body: Stream<StoreError>,
                   ifNoneMatch: bool, occupied: bool, n: nat, stored: Result<bool, StoreError>,
                   r: Result<Option<nat>, StoreError>)
    requires size > 0 && Fault(body).None? && |Text(body)| <= size
    requires Decided(net, from, n, ifNoneMatch, occupied, stored)
    requires r == if stored.Err? then Err(stored.error) else if stored.value then Ok(Some(|Text(body)|)) else Ok(None)
    ensures BodyEnds(net, from, size, max, body, ifNoneMatch, occupied, r)
    ensures net(from).Served? ==> n == 1
    ensures ifNoneMatch && Clashing(net, from, 9) ==> n == 9
  {
    hide Text, Fault, CeilDiv;
    assert Clashing(net, from, 0);
    if net(from).Served? { assert net(from + 0).Served?; }
    assert AllServed(net, from) ==> net(from).Served?;
  }

  lemma EndsInFault(net: nat -> Fate, from: nat, size: nat, max: nat, body: Stream<StoreError>,
                    ifNoneMatch: bool, occupied: bool, e: StoreError)
    requires size > 0 && Fault(body) == Some(e)
    ensures BodyEnds(net, from, size, max, body, ifNoneMatch, occupied, Err(e))
  {
    hide Text, Fault, CeilDiv;
  }

  lemma OneChunkAtMost(out: Stream<StoreError>, whole: Bytes)
    requires if whole == [] then out == [] || out == [Ok([])] else out == [Ok(whole)]
    ensures Text(out) == whole && Fault(out).None?
  {
  }

  class Store {
    const bucket: Bucket
    const prefix: string
    const partSize: nat
    const maxParts: nat

    constructor (b: Bucket, p: string, size: nat, max: nat)
      requires size > 0
      ensures bucket == b && prefix == p && partSize == size && maxParts == max
    {
      bucket, prefix, partSize, maxParts := b, p, size, max;
    }

    /**
    A body of one part: one object request, re-sent while other conditional writes are in the way.
    After `k` such conflicts a request that is served decides: stored unless a conditional one found
    an object. Nine conflicts, or any other failure, are an error.
    */
    method PutWhole(full: string, body: Bytes, ifNoneMatch: bool, net: nat -> Fate)
      returns (r: Result<bool, StoreError>, waited: nat)
      modifies bucket`objects, bucket`requests
      ensures bucket.objects == old(bucket.objects) || bucket.Stores(old(bucket.objects), full, body, ifNoneMatch)
      ensures r == Ok(true) ==> bucket.Stores(old(bucket.objects), full, body, ifNoneMatch)
      ensures r == Ok(false) ==> ifNoneMatch && full in bucket.objects
      ensures exists n: nat ::
                && Sent(old(bucket.requests), Put(full), n) && (!ifNoneMatch ==> n == 1)
                && waited == TotalBackoff(n - 1)
                && Decided(net, |old(bucket.requests)|, n, ifNoneMatch, full in old(bucket.objects), r)
    {
      hide TotalBackoff, ConditionalBackoff;
      ghost var from := |bucket.requests|;
      var attempt := 0;
      waited := 0;
      OneMoreWait(0);
      while true
        invariant attempt <= CONDITIONAL_RETRIES && (attempt > 0 ==> ifNoneMatch)
        invariant bucket.objects == old(bucket.objects) || bucket.Stores(old(bucket.objects), full, body, ifNoneMatch)
        invariant Resends(old(bucket.requests), Put(full), attempt) && waited == TotalBackoff(attempt)
        invariant Undecided(net, from, attempt)
        invariant Clashing(net, from, attempt) ==> bucket.objects == old(bucket.objects)
        decreases CONDITIONAL_RETRIES - attempt
      {
        OneMoreWait(attempt);
        OneMoreClash(net, from, attempt);
        var sent := bucket.PutObject(full, body, ifNoneMatch, net(|bucket.requests|));
        assert Sent(old(bucket.requests), Put(full), attempt + 1);
        var outcome := if sent.Ok? then None else ConditionalOutcome(sent.error);
        if outcome == Some(Conflict) && ifNoneMatch && attempt < CONDITIONAL_RETRIES {
          attempt := attempt + 1;
          waited := waited + ConditionalBackoff(attempt);
        } else {
          r := if sent.Ok? then Ok(true)
               else if outcome == Some(Present) && ifNoneMatch then Ok(false)
               else Err(RequestFailed(sent.error));
          DecidedHere(net, from, attempt, ifNoneMatch, full in old(bucket.objects), r);
          return;
        }
      }
    }

    ghost predicate Resends(before: seq<Request>, request: Request, n: nat)
      reads bucket
    {
      bucket.requests == before + seq(n, _ => request)
    }

    /** Chunk `n` becomes part `n + 1`. */
    method SendPart(id: nat, n: nat, chunk: Bytes, net: nat -> Fate,
                    ghost open: map<nat, Upload>, ghost out: Stream<StoreError>,
                    ghost size: nat, ghost before: seq<Request>)
      returns (r: Result<(), SdkError>)
      requires bucket.Valid() && OnlyOne(open, bucket.uploads, id)
      requires Uploaded(id, bucket.uploads[id].parts, out, n, size, before, bucket.requests) && n < |out|
      requires out[n] == Ok(chunk)
      modifies bucket`uploads, bucket`requests
      ensures bucket.Valid() && OnlyOne(open, bucket.uploads, id) && old(bucket.requests) < bucket.requests
      ensures r.Ok? ==> Uploaded(id, bucket.uploads[id].parts, out, n + 1, size + |chunk|, before, bucket.requests)
      ensures net(|old(bucket.requests)|).Served? ==> r.Ok?
    {
      OneMorePart(id, bucket.uploads[id].parts, out, n, size, before, bucket.requests);
      hide Uploaded;
      r := bucket.UploadPart(id, n + 1, chunk, net(|bucket.requests|));
    }

    /** One part after the other, numbered from one, until the chunks end or something fails. */
    method UploadParts(id: nat, first: Bytes, second: Bytes, rest: Chunker<StoreError>, net: nat -> Fate)
      returns (r: Result<(nat, nat), StoreError>)
      requires rest.Valid() && bucket.Valid()
      requires id in bucket.uploads && bucket.uploads[id].parts == map[]
      modifies rest, bucket`uploads, bucket`requests
      ensures bucket.Valid() && OnlyOne(old(bucket.uploads), bucket.uploads, id)
      ensures old(bucket.requests) <= bucket.requests
      ensures var out := [Ok(first), Ok(second)] + old(rest.Remaining());
              && (Fault(out).Some? || |out| > maxParts ==> r.Err?)
              && (r.Ok? ==>
                    && AllOk(out) && r.value.0 == |out| && r.value.1 == |Text(out)|
                    && HasParts(bucket.uploads[id].parts, |out|)
                    && Assemble(bucket.uploads[id].parts, |out|) == Text(out)
                    && bucket.requests == old(bucket.requests) + PartRequests(id, Values(out)))
              && EndsAsItMust(net, |old(bucket.requests)|, maxParts, out, r)
    {
      hide *;
      ghost var out := [Ok(first), Ok(second)] + old(rest.Remaining());
      ghost var open, before := bucket.uploads, bucket.requests;
      var index: nat, size: nat := 0, 0;
      var next: Option<Result<Bytes, StoreError>> := Some(Ok(first));
      assert out == [Ok(first)] + ([Ok(second)] + rest.Remaining());
      NoParts(id, out, before);
      Itself(open, id);
      AheadIs(next, 0, second, rest);
      while next.Some?
        invariant bucket.Valid() && rest.Valid() && OnlyOne(open, bucket.uploads, id) && before <= bucket.requests
        invariant index <= |out| && out[index..] == Ahead(next, index, second, rest)
        invariant index <= maxParts && Uploaded(id, bucket.uploads[id].parts, out, index, size, before, bucket.requests)
        decreases |out| - index
      {
        AheadIs(next, index, second, rest);
        assert out[index] == out[index..][0] == next.value;
        StopsAt(net, |before|, maxParts, id, bucket.uploads[id].parts, out, index, size, before, bucket.requests);
        if next.value.Err? {
          HasFault(out, index);
          return Err(next.value.error);
        }
        if index >= maxParts {
          return Err(TooManyParts);
        }
        ghost var number := |bucket.requests|;
        var sent := SendPart(id, index, next.value.value, net, open, out, size, before);
        if sent.Err? {
          NotServed(net, |before|, number, maxParts, out, RequestFailed(sent.error));
          return Err(RequestFailed(sent.error));
        }
        assert out[index + 1..] == out[index..][1..] == After(index, second, rest);
        index, size := index + 1, size + |next.value.value|;
        next := NextChunk(index, second, rest);
      }
      AheadIs(next, index, second, rest);
      AllParts(id, bucket.uploads[id].parts, out, size, before, bucket.requests);
      r := Ok((index, size));
      AllSent(net, |before|, maxParts, out, r);
    }

    /** The chunks after number `n`, the first being chunk zero. */
    ghost function After(n: nat, second: Bytes, rest: Chunker<StoreError>): Stream<StoreError>
      requires rest.Valid()
      reads rest
    {
      if n == 0 then [Ok(second)] + rest.Remaining() else rest.Remaining()
    }

    /** `next` is chunk `n`, or there is none. */
    ghost function Ahead(
        next: Option<Result<Bytes, StoreError>>, n: nat, second: Bytes, rest: Chunker<StoreError>): Stream<StoreError>
      requires rest.Valid()
      reads rest
    {
      if next.None? then [] else [next.value] + After(n, second, rest)
    }

    lemma AheadIs(next: Option<Result<Bytes, StoreError>>, n: nat, second: Bytes, rest: Chunker<StoreError>)
      requires rest.Valid()
      ensures Ahead(next, n, second, rest) == if next.None? then [] else [next.value] + After(n, second, rest)
      ensures n == 0 ==> After(n, second, rest) == [Ok(second)] + rest.Remaining()
    {
    }

    method NextChunk(n: nat, second: Bytes, rest: Chunker<StoreError>) returns (next: Option<Result<Bytes, StoreError>>)
      requires rest.Valid() && n > 0
      modifies rest
      ensures rest.Valid() && old(After(n - 1, second, rest)) == Ahead(next, n, second, rest)
    {
      if n == 1 {
        next := Some(Ok(second));
      } else {
        next := rest.Next();
      }
    }

    /** Between one and nine of the same request were sent. */
    ghost predicate Sent(before: seq<Request>, request: Request, n: nat)
      reads bucket
    {
      1 <= n <= 9 && Resends(before, request, n)
    }

    /** Parts `1..n` become the object, the request re-sent as `PutWhole` does. */
    method CompleteParts(id: nat, n: nat, ifNoneMatch: bool, net: nat -> Fate)
      returns (r: Result<bool, StoreError>, waited: nat)
      requires bucket.Valid() && id in bucket.uploads
      modifies bucket`objects, bucket`uploads, bucket`requests
      ensures bucket.Valid()
      ensures (bucket.objects == old(bucket.objects) && bucket.uploads == old(bucket.uploads)) ||
              bucket.Completes(old(bucket.objects), old(bucket.uploads), id, n, ifNoneMatch)
      ensures r == Ok(true) ==> bucket.Completes(old(bucket.objects), old(bucket.uploads), id, n, ifNoneMatch)
      ensures r == Ok(false) ==> ifNoneMatch && old(bucket.uploads)[id].key in bucket.objects
      ensures exists k: nat ::
                && Sent(old(bucket.requests), Complete(id), k) && (!ifNoneMatch ==> k == 1)
                && waited == TotalBackoff(k - 1)
                && (HasParts(old(bucket.uploads)[id].parts, n) ==>
                      Decided(net, |old(bucket.requests)|, k, ifNoneMatch,
                              old(bucket.uploads)[id].key in old(bucket.objects), r))
    {
      hide TotalBackoff, ConditionalBackoff, HasParts, Assemble;
      ghost var from := |bucket.requests|;
      var attempt := 0;
      waited := 0;
      OneMoreWait(0);
      while true
        invariant attempt <= CONDITIONAL_RETRIES && (attempt > 0 ==> ifNoneMatch) && bucket.Valid()
        invariant (bucket.objects == old(bucket.objects) && bucket.uploads == old(bucket.uploads)) ||
                  bucket.Completes(old(bucket.objects), old(bucket.uploads), id, n, ifNoneMatch)
        invariant Resends(old(bucket.requests), Complete(id), attempt) && waited == TotalBackoff(attempt)
        invariant Undecided(net, from, attempt)
        invariant Clashing(net, from, attempt) ==>
                    bucket.objects == old(bucket.objects) && bucket.uploads == old(bucket.uploads)
        decreases CONDITIONAL_RETRIES - attempt
      {
        OneMoreWait(attempt);
        OneMoreClash(net, from, attempt);
        var sent := bucket.CompleteUpload(id, n, ifNoneMatch, net(|bucket.requests|));
        assert Sent(old(bucket.requests), Complete(id), attempt + 1);
        var outcome := if sent.Ok? then None else ConditionalOutcome(sent.error);
        if outcome == Some(Conflict) && ifNoneMatch && attempt < CONDITIONAL_RETRIES {
          attempt := attempt + 1;
          waited := waited + ConditionalBackoff(attempt);
        } else {
          r := if sent.Ok? then Ok(true)
               else if outcome == Some(Present) && ifNoneMatch then Ok(false)
               else Err(RequestFailed(sent.error));
          if HasParts(old(bucket.uploads)[id].parts, n) {
            DecidedHere(net, from, attempt, ifNoneMatch, old(bucket.uploads)[id].key in old(bucket.objects), r);
          }
          return;
        }
      }
    }

    /** The whole of `out` is stored under `full` and its upload is gone. */
    ghost predicate Assembled(before: map<string, Bytes>, open: map<nat, Upload>, id: nat, full: string,
                              out: Stream<StoreError>, ifNoneMatch: bool)
      reads bucket
    {
      AllOk(out) && bucket.Stores(before, full, Text(out), ifNoneMatch) && bucket.uploads == open - {id}
    }

    ghost predicate NotAssembled(before: map<string, Bytes>, open: map<nat, Upload>, id: nat)
      reads bucket
    {
      bucket.objects == before && OnlyOne(open, bucket.uploads, id)
    }

    /** What happens between create and abort. */
    method UploadAndComplete(
        id: nat, first: Bytes, second: Bytes, rest: Chunker<StoreError>, ifNoneMatch: bool, net: nat -> Fate)
      returns (r: Result<Option<nat>, StoreError>)
      requires rest.Valid() && bucket.Valid()
      requires id in bucket.uploads && bucket.uploads[id].parts == map[]
      modifies rest, bucket`objects, bucket`uploads, bucket`requests
      ensures bucket.Valid() && old(bucket.requests) <= bucket.requests
      ensures var full, out := old(bucket.uploads)[id].key, [Ok(first), Ok(second)] + old(rest.Remaining());
              && (NotAssembled(old(bucket.objects), old(bucket.uploads), id) ||
                  Assembled(old(bucket.objects), old(bucket.uploads), id, full, out, ifNoneMatch))
              && (r.Ok? && r.value.Some? ==>
                    && Assembled(old(bucket.objects), old(bucket.uploads), id, full, out, ifNoneMatch)
                    && |out| <= maxParts && r.value.value == |Text(out)|
                    && exists k: nat :: Sent(old(bucket.requests) + PartRequests(id, Values(out)), Complete(id), k))
              && (r.Ok? ==> AllOk(out) && |out| <= maxParts)
              && (r == Ok(None) ==> ifNoneMatch && full in bucket.objects)
              && PutEnds(net, |old(bucket.requests)|, maxParts, out, ifNoneMatch, full in old(bucket.objects), r)
    {
      hide AllOk, HasParts, Assemble, Text, Fault, Output, Values, PartRequests, EndsAsItMust, PutEnds, Decided;
      ghost var out, from := [Ok(first), Ok(second)] + rest.Remaining(), |bucket.requests|;
      ghost var occupied := bucket.uploads[id].key in bucket.objects;
      ghost var open := bucket.uploads;
      var uploaded := UploadParts(id, first, second, rest, net);
      if uploaded.Err? {
        PutEndsEarly(net, from, maxParts, out, ifNoneMatch, occupied, uploaded);
        return Err(uploaded.error);
      }
      assert bucket.uploads - {id} == open - {id};
      ghost var at, sent := |bucket.requests|, bucket.requests;
      var completed, _ := CompleteParts(id, uploaded.value.0, ifNoneMatch, net);
      r := if completed.Err? then Err(completed.error)
           else if completed.value then Ok(Some(uploaded.value.1))
           else Ok(None);
      ghost var k: nat :| Sent(sent, Complete(id), k) && Decided(net, at, k, ifNoneMatch, occupied, completed);
      PutEndsLate(net, from, at, k, maxParts, out, ifNoneMatch, occupied, completed, r);
    }

    /** A body of several parts: create, upload, complete, and abort whatever was not completed. */
    method PutInParts(
        full: string, first: Bytes, second: Bytes, rest: Chunker<StoreError>, ifNoneMatch: bool, net: nat -> Fate)
      returns (r: Result<Option<nat>, StoreError>)
      requires rest.Valid() && bucket.Valid()
      modifies rest, bucket
      ensures bucket.Valid()
      ensures bucket.uploads == old(bucket.uploads) || AbortFailed(old(bucket.uploads), old(bucket.nextId), net)
      ensures old(bucket.requests) + [Create(full)] <= bucket.requests
      ensures var out := [Ok(first), Ok(second)] + old(rest.Remaining());
              && (bucket.objects == old(bucket.objects) ||
                  (AllOk(out) && bucket.Stores(old(bucket.objects), full, Text(out), ifNoneMatch)))
              && (r.Ok? && r.value.Some? ==>
                    && AllOk(out) && |out| <= maxParts && r.value.value == |Text(out)|
                    && bucket.Stores(old(bucket.objects), full, Text(out), ifNoneMatch)
                    && bucket.uploads == old(bucket.uploads)
                    && exists k: nat ::
                         Sent(old(bucket.requests) + [Create(full)] + PartRequests(old(bucket.nextId), Values(out)),
                              Complete(old(bucket.nextId)), k))
              && (r.Ok? ==> AllOk(out) && |out| <= maxParts)
              && (r == Ok(None) ==> ifNoneMatch && full in bucket.objects)
              && PutEnds(net, |old(bucket.requests)|, maxParts, out, ifNoneMatch, full in old(bucket.objects), r)
    {
      hide AllOk, HasParts, Assemble, Text, Fault, Output, Values, PartRequests, Sent;
      var created := bucket.CreateUpload(full, net(|bucket.requests|));
      if created.Err? {
        return Err(RequestFailed(created.error));
      }
      var id := created.value;
      assert bucket.uploads - {id} == old(bucket.uploads);
      r := UploadAndComplete(id, first, second, rest, ifNoneMatch, net);
      if r.Ok? && r.value.Some? {
        return;
      }
      assert bucket.uploads - {id} == old(bucket.uploads);
      var _ := bucket.AbortUpload(id, net(|bucket.requests|));
    }

    /** The one upload left open beyond those of `before` is `id`, and the request to abort it failed. */
    ghost predicate AbortFailed(before: map<nat, Upload>, id: nat, net: nat -> Fate)
      reads bucket
    {
      && bucket.uploads - {id} == before
      && |bucket.requests| > 0 && bucket.requests[|bucket.requests| - 1] == Abort(id)
      && net(|bucket.requests| - 1).Fails?
    }

    /** The put of a body under a full key, once the key has passed its rules. */
    method PutBody(full: string, body: Stream<StoreError>, ifNoneMatch: bool, net: nat -> Fate)
      returns (r: Result<Option<nat>, StoreError>)
      requires partSize > 0 && bucket.Valid()
      modifies bucket
      ensures bucket.Valid()
      ensures Fault(body).Some? ==> r.Err? && bucket.objects == old(bucket.objects)
      ensures bucket.objects == old(bucket.objects) || bucket.Stores(old(bucket.objects), full, Text(body), ifNoneMatch)
      ensures bucket.uploads == old(bucket.uploads) || AbortFailed(old(bucket.uploads), old(bucket.nextId), net)
      ensures r == Ok(None) ==> ifNoneMatch && full in bucket.objects
      ensures r.Ok? && r.value.Some? ==>
                && r.value.value == |Text(body)|
                && bucket.Stores(old(bucket.objects), full, Text(body), ifNoneMatch)
                && bucket.uploads == old(bucket.uploads)
                && Layout(old(bucket.requests), old(bucket.nextId), full, Text(body))
      ensures var parts := CeilDiv(|Text(body)|, partSize);
              Fault(body).None? && parts > 1 && parts > maxParts ==> r.Err?
      ensures var there := full in old(bucket.objects);
              BodyEnds(net, |old(bucket.requests)|, partSize, maxParts, body, ifNoneMatch, there, r)
      ensures SentAtOnce(net, old(bucket.requests), full, body, ifNoneMatch)
    {
      var chunks := new Chunker(body, partSize);
      ghost var out := chunks.Remaining();
      ghost var from, occupied := |bucket.requests|, full in bucket.objects;
      ChunksOf(partSize, body);
      hide Output, Text, Fault, AllOk, CeilDiv, PartsOf, Values, PartRequests, BodyEnds, PutEnds, Decided, Clashing;
      var first := chunks.Next();
      if first.Some? && first.value.Err? {
        FirstFault(out, 0);
        EndsInFault(net, from, partSize, maxParts, body, ifNoneMatch, occupied, first.value.error);
        return Err(first.value.error);
      }
      var second := chunks.Next();
      if second.None? {
        var whole := if first.None? then [] else first.value.value;
        OneChunkAtMost(out, whole);
        r := PutAtOnce(full, body, whole, ifNoneMatch, net);
        return;
      }
      assert out == [first.value, second.value] + chunks.Remaining();
      if second.value.Err? {
        FirstFault(out, 1);
        EndsInFault(net, from, partSize, maxParts, body, ifNoneMatch, occupied, second.value.error);
        return Err(second.value.error);
      }
      r := PutInParts(full, first.value.value, second.value.value, chunks, ifNoneMatch, net);
      EndsInParts(net, from, partSize, maxParts, body, ifNoneMatch, occupied, r);
    }

    /** The body, all of it in `whole`, goes in one object request. */
    method PutAtOnce(full: string, ghost body: Stream<StoreError>, whole: Bytes, ifNoneMatch: bool, net: nat -> Fate)
      returns (r: Result<Option<nat>, StoreError>)
      requires partSize > 0 && bucket.Valid() && Fault(body).None? && Text(body) == whole && |whole| <= partSize
      modifies bucket`objects, bucket`requests
      ensures bucket.objects == old(bucket.objects) || bucket.Stores(old(bucket.objects), full, whole, ifNoneMatch)
      ensures r == Ok(None) ==> ifNoneMatch && full in bucket.objects
      ensures r.Ok? && r.value.Some? ==>
                && r.value.value == |whole| && bucket.Stores(old(bucket.objects), full, whole, ifNoneMatch)
                && exists k: nat :: Sent(old(bucket.requests), Put(full), k)
      ensures var there := full in old(bucket.objects);
              BodyEnds(net, |old(bucket.requests)|, partSize, maxParts, body, ifNoneMatch, there, r)
      ensures SentAtOnce(net, old(bucket.requests), full, body, ifNoneMatch)
    {
      hide Text, Fault, BodyEnds, Decided, Clashing;
      ghost var before, occupied := bucket.requests, full in bucket.objects;
      var stored, _ := PutWhole(full, whole, ifNoneMatch, net);
      r := if stored.Err? then Err(stored.error) else if stored.value then Ok(Some(|whole|)) else Ok(None);
      ghost var n: nat :| Sent(before, Put(full), n) && Decided(net, |before|, n, ifNoneMatch, occupied, stored);
      EndsAtOnce(net, |before|, partSize, maxParts, body, ifNoneMatch, occupied, n, stored, r);
    }

    /** How many requests a body of one part takes when the first is served or all nine meet a conflict. */
    ghost predicate SentAtOnce(
        net: nat -> Fate, before: seq<Request>, full: string, body: Stream<StoreError>, ifNoneMatch: bool)
      reads bucket
    {
      Fault(body).None? && |Text(body)| <= partSize ==>
        && (net(|before|).Served? ==> Resends(before, Put(full), 1))
        && (ifNoneMatch && Clashing(net, |before|, 9) ==> Resends(before, Put(full), 9))
    }

    /**
    The one upload path behind `put` and `put_if_absent`.

    Whatever the network does, the key holds its previous object or the whole body, no other key
    changes, a conditional put never replaces an object, and an upload is left open only if the
    request to abort it failed. On success the reported size is the body's; a body goes in one
    object request if and only if it fits the part size, otherwise as parts numbered from one, all
    but the last of exactly the part size, and never more than `maxParts` of them.
    */
    method PutInner(key: string, body: Stream<StoreError>, ifNoneMatch: bool, net: nat -> Fate)
      returns (r: Result<Option<ObjectMeta>, StoreError>)
      requires partSize > 0 && bucket.Valid()
      modifies bucket
      ensures bucket.Valid()
      ensures ValidateKey(key).Err? || FullKey(prefix, key).Err? ==> unchanged(bucket)
      ensures ValidateKey(key).Err? ==> r == Err(InvalidKey(ValidateKey(key).error))
      ensures ValidateKey(key).Ok? && FullKey(prefix, key).Err? ==> r == Err(InvalidKey(FullKey(prefix, key).error))
      ensures Fault(body).Some? ==> r.Err? && bucket.objects == old(bucket.objects)
      ensures || bucket.objects == old(bucket.objects)
              || bucket.Stores(old(bucket.objects), prefix + key, Text(body), ifNoneMatch)
      ensures bucket.uploads == old(bucket.uploads) || AbortFailed(old(bucket.uploads), old(bucket.nextId), net)
      ensures r == Ok(None) ==> ifNoneMatch && prefix + key in bucket.objects
      ensures r.Ok? && r.value.Some? ==>
                && r.value.value == ObjectMeta(key, |Text(body)|)
                && bucket.Stores(old(bucket.objects), prefix + key, Text(body), ifNoneMatch)
                && bucket.uploads == old(bucket.uploads)
                && Layout(old(bucket.requests), old(bucket.nextId), prefix + key, Text(body))
      ensures var parts := CeilDiv(|Text(body)|, partSize);
              Fault(body).None? && parts > 1 && parts > maxParts ==> r.Err?
      ensures ValidateKey(key).Ok? && FullKey(prefix, key).Ok? ==>
                && SentAtOnce(net, old(bucket.requests), prefix + key, body, ifNoneMatch)
                && BodyEnds(net, |old(bucket.requests)|, partSize, maxParts, body, ifNoneMatch,
                            prefix + key in old(bucket.objects), Sized(r))
      ensures r.Ok? && r.value.Some? ==> r.value.value.key == key
    {
      hide Text, Fault, CeilDiv, Layout, ByteLen, ValidateComponents, BodyEnds, SentAtOnce;
      if ValidateKey(key).Err? {
        return Err(InvalidKey(ValidateKey(key).error));
      }
      if FullKey(prefix, key).Err? {
        return Err(InvalidKey(FullKey(prefix, key).error));
      }
      var stored := PutBody(prefix + key, body, ifNoneMatch, net);
      r := if stored.Err? then Err(stored.error)
           else if stored.value.None? then Ok(None)
           else Ok(Some(ObjectMeta(key, stored.value.value)));
    }

    /** How a stored body travelled. */
    ghost predicate Layout(before: seq<Request>, id: nat, full: string, data: Bytes)
      requires partSize > 0
      reads bucket
    {
      if |data| <= partSize then exists k: nat :: Sent(before, Put(full), k)
      else
        var parts := PartsOf(partSize, data);
        && CeilDiv(|data|, partSize) == |parts| <= maxParts
        && exists k: nat :: Sent(before + [Create(full)] + PartRequests(id, parts), Complete(id), k)
    }
  }
}
