/**
`list` and `delete_prefix` of the S3 store: loops over pages of a listing the bucket serves in key
order, the bucket changing under the second loop as it deletes. Page sizes are the server's: page
`n` has at most `1 + sizes(n)` entries.
*/
module S3Listing {
  import opened Wrappers
  import opened Keys
  import opened KeyMatching
  import opened S3Keys
  import opened Ordering
  import opened Chunks
  import opened S3Bucket
  import opened S3Put

  const DELETE_BATCH := 1000

  /** The bucket-side keys a listing request with the string prefix `request` returns. */
  function Candidates(keys: set<string>, request: string): set<string> {
    set k | k in keys && request <= k
  }

  /** `full` is a store key under `match`, component by component. */
  predicate Under(full: string, store: string, prefix: string) {
    store <= full && KeyMatchesPrefix(full[|store|..], prefix)
  }

  /** The bucket-side keys a deletion of `match` has to remove. */
  function Matching(keys: set<string>, store: string, prefix: string): set<string> {
    set k | k in keys && Under(k, store, prefix)
  }

  /** What is under the prefix is among what the string prefix finds. */
  lemma UnderIsCandidate(full: string, store: string, prefix: string)
    requires Under(full, store, prefix)
    ensures store + prefix <= full
  {
    var key := full[|store|..];
    assert full == store + key;
    if prefix != "" {
      assert key == prefix + key[|prefix|..];
      assert full == store + prefix + key[|prefix|..];
    } else {
      assert full == store + prefix + key;
    }
  }

  /** A key that merely continues the prefix's last component, as `a/bc` does `a/b`, is not under it. */
  lemma SiblingsAreNotUnder(store: string, prefix: string, c: char, rest: string)
    requires prefix != "" && c != '/'
    ensures store + prefix <= store + prefix + [c] + rest
    ensures !Under(store + prefix + [c] + rest, store, prefix)
  {
    var full := store + prefix + [c] + rest;
    var key := full[|store|..];
    assert key == prefix + [c] + rest;
    assert key[|prefix|] == c;
  }

  // ---- Pages of the listing, filtered. ----

  /** The elements of `page` that are under the prefix, in order. */
  method Select(page: seq<string>, store: string, prefix: string) returns (chosen: seq<string>)
    requires Ascending(page, KeyLess)
    ensures Ascending(chosen, KeyLess) && Elements(chosen) == set k | k in page && Under(k, store, prefix)
  {
    chosen := [];
    for i := 0 to |page|
      invariant Ascending(chosen, KeyLess)
      invariant Elements(chosen) == set k | k in page[..i] && Under(k, store, prefix)
    {
      assert page[..i + 1] == page[..i] + [page[i]];
      if Under(page[i], store, prefix) {
        forall j | 0 <= j < |chosen| ensures KeyLess(chosen[j], page[i]) {
          assert chosen[j] in Elements(chosen);
        }
        assert Elements(chosen + [page[i]]) == Elements(chosen) + {page[i]};
        chosen := chosen + [page[i]];
      }
    }
    assert page[..|page|] == page;
  }

  /** The part of `all` up to `next`, exclusive of what was before `after`. */
  lemma PageCovers(all: set<string>, keys: set<string>, after: Option<string>, next: Option<string>,
                   page: set<string>, store: string, prefix: string)
    requires all == Matching(keys, store, prefix)
    requires var items := Candidates(keys, store + prefix);
             if next.None? then page == Beyond(items, KeyLess, after)
             else page + Beyond(items, KeyLess, next) == Beyond(items, KeyLess, after)
                  && page !! Beyond(items, KeyLess, next)
    ensures var chosen := set k | k in page && Under(k, store, prefix);
            if next.None? then chosen == Beyond(all, KeyLess, after)
            else chosen + Beyond(all, KeyLess, next) == Beyond(all, KeyLess, after)
                 && chosen !! Beyond(all, KeyLess, next)
  {
    var items := Candidates(keys, store + prefix);
    forall k | k in all ensures k in items { UnderIsCandidate(k, store, prefix); }
    hide KeyLess, Under;
    var chosen := set k | k in page && Under(k, store, prefix);
    forall k
      ensures k in Beyond(all, KeyLess, after) <==> k in Beyond(items, KeyLess, after) && Under(k, store, prefix) {}
    if next.Some? {
      forall k
        ensures k in Beyond(all, KeyLess, next) <==> k in Beyond(items, KeyLess, next) && Under(k, store, prefix) {}
    }
  }

  class Lister {
    const bucket: Bucket
    const store: string

    constructor (b: Bucket, p: string)
      requires IsStorePrefix(p)
      ensures bucket == b && store == p
    {
      bucket, store := b, p;
    }

    /** One listing request and its filter: the next stretch of what is under the prefix. */
    method Page(prefix: string, after: Option<string>, net: nat -> Fate, sizes: nat -> nat)
      returns (r: Result<(seq<string>, Option<string>), SdkError>)
      modifies bucket`requests
      ensures bucket.requests == old(bucket.requests) + [List]
      ensures r.Ok? ==>
                var (chosen, next) := r.value;
                var all := Matching(bucket.objects.Keys, store, prefix);
                && Ascending(chosen, KeyLess)
                && (if next.None? then Elements(chosen) == Beyond(all, KeyLess, after)
                    else Elements(chosen) + Beyond(all, KeyLess, next) == Beyond(all, KeyLess, after)
                         && Elements(chosen) !! Beyond(all, KeyLess, next))
                && (next.Some? ==>
                      && (after.Some? ==> KeyLess(after.value, next.value))
                      && next.value in Beyond(Candidates(bucket.objects.Keys, store + prefix), KeyLess, after))
      ensures var fate := net(|old(bucket.requests)|);
              if fate.Fails? || fate.Lost? then r == Err(fate.error) else r.Ok?
    {
      var number := |bucket.requests|;
      bucket.requests := bucket.requests + [List];
      if net(number).Fails? || net(number).Lost? {
        return Err(net(number).error);
      }
      KeysAreOrdered();
      var items := Candidates(bucket.objects.Keys, store + prefix);
      var page, next := NextPage(items, KeyLess, after, 1 + sizes(number));
      var chosen := Select(page, store, prefix);
      hide KeyLess, Under;
      var keys := bucket.objects.Keys;
      PageCovers(Matching(keys, store, prefix), keys, after, next, Elements(page), store, prefix);
      assert (set k | k in page && Under(k, store, prefix)) == (set k | k in Elements(page) && Under(k, store, prefix));
      assert next.Some? ==> next.value in Beyond(items, KeyLess, after);
      r := Ok((chosen, next));
    }

    /** Every valid key under the prefix with its object's size, in key order, however the pages fall. */
    method ListAll(prefix: string, net: nat -> Fate, sizes: nat -> nat) returns (r: Result<seq<ObjectMeta>, StoreError>)
      modifies bucket`requests
      ensures ValidatePrefix(prefix).Err? ==> r == Err(InvalidKey(ValidatePrefix(prefix).error)) && unchanged(bucket)
      ensures r.Ok? ==> IsListing(r.value, bucket.objects, store, StripSlash(prefix))
      ensures ValidatePrefix(prefix).Ok? && AllServed(net, |old(bucket.requests)|) ==> r.Ok?
    {
      if ValidatePrefix(prefix).Err? {
        return Err(InvalidKey(ValidatePrefix(prefix).error));
      }
      var normalized := StripSlash(prefix);
      hide ValidatePrefix, StripSlash, KeyLess;
      KeysAreOrdered();
      ghost var all := Matching(bucket.objects.Keys, store, normalized);
      ghost var items := Candidates(bucket.objects.Keys, store + normalized);
      var fulls, token, more := [], None, true;
      assert Beyond(all, KeyLess, None) == all;
      while more
        invariant Ascending(fulls, KeyLess) && Reached(all, Elements(fulls), token, more)
        invariant |old(bucket.requests)| <= |bucket.requests|
        decreases more, |Beyond(items, KeyLess, token)|
      {
        var listed := Page(normalized, token, net, sizes);
        if listed.Err? {
          return Err(RequestFailed(listed.error));
        }
        var (chosen, next) := listed.value;
        Continue(all, fulls, chosen, token, next);
        Shrinks(items, token, next);
        fulls, token, more := fulls + chosen, next, next.Some?;
      }
      ReportIsListing(fulls, store, normalized, bucket.objects);
      r := Ok(Report(fulls, store, bucket.objects));
    }

    /** Delete in requests of at most a thousand keys; stop at the first key that could not be deleted. */
    method DeleteBatches(keys: seq<string>, denied: set<string>, net: nat -> Fate) returns (r: Result<nat, StoreError>)
      modifies bucket`objects, bucket`requests
      ensures Polite(old(bucket.requests), bucket.requests)
      ensures Without(old(bucket.objects), bucket.objects, Elements(keys))
      ensures r.Ok? ==> r.value == |keys| && bucket.objects == old(bucket.objects) - Elements(keys)
      ensures AllServed(net, |old(bucket.requests)|) && Elements(keys) !! denied ==> r.Ok?
    {
      var i := 0;
      while i < |keys|
        invariant i <= |keys|
        invariant old(bucket.requests) <= bucket.requests && SmallBatches(bucket.requests[|old(bucket.requests)|..])
        invariant bucket.objects == old(bucket.objects) - Elements(keys[..i])
      {
        var n := if |keys| - i < DELETE_BATCH then |keys| - i else DELETE_BATCH;
        var batch := keys[i..i + n];
        assert Elements(batch) <= Elements(keys);
        var answer := bucket.DeleteObjects(batch, denied, net(|bucket.requests|));
        Deleted(old(bucket.objects), keys, i, i + n, bucket.objects);
        if answer.Err? {
          return Err(RequestFailed(answer.error));
        }
        if answer.value != [] {
          return Err(KeysNotDeleted(|answer.value|, n));
        }
        i := i + n;
      }
      assert keys[..i] == keys;
      r := Ok(i);
    }

    /** One turn of the object loop: list a page, delete what it shows under the prefix. */
    method DeletePage(prefix: string, token: Option<string>, denied: set<string>, net: nat -> Fate, sizes: nat -> nat,
                      ghost before: map<string, Bytes>, ghost seen: set<string>)
      returns (r: Result<(nat, Option<string>), StoreError>, ghost seen': set<string>)
      requires IsTotalOrder(KeyLess) && bucket.objects == before - seen
      requires Reached(Matching(before.Keys, store, prefix), seen, token, true)
      modifies bucket`objects, bucket`requests
      ensures Polite(old(bucket.requests), bucket.requests)
      ensures Without(before, bucket.objects, Matching(before.Keys, store, prefix))
      ensures r.Ok? ==>
                var (n, next) := r.value;
                && Reached(Matching(before.Keys, store, prefix), seen', next, next.Some?)
                && bucket.objects == before - seen' && |seen'| == |seen| + n
                && (next.Some? ==>
                      && next.value in Beyond(Candidates(before.Keys, store + prefix), KeyLess, token)
                      && (token.Some? ==> KeyLess(token.value, next.value)))
      ensures AllServed(net, |old(bucket.requests)|) && Matching(before.Keys, store, prefix) !! denied ==> r.Ok?
    {
      hide *;
      ServedFrom(net, |bucket.requests|);
      seen' := seen;
      NothingYet(before, seen, token, store, prefix);
      ghost var first := bucket.requests;
      var listed := Page(prefix, token, net, sizes);
      JustListed(first);
      if listed.Err? {
        return Err(RequestFailed(listed.error)), seen;
      }
      var (chosen, next) := listed.value;
      ghost var current, second := bucket.objects, bucket.requests;
      StillThere(before, seen, token, next, store, prefix, chosen);
      var answer := DeleteBatches(chosen, denied, net);
      PoliteThroughout(first, second, bucket.requests);
      StillWithout(before, current, bucket.objects, seen, Elements(chosen), Matching(before.Keys, store, prefix));
      if answer.Err? {
        return Err(answer.error), seen;
      }
      seen' := seen + Elements(chosen);
      r := Ok((answer.value, next));
    }

    /** The object loop of `delete_prefix`: page by page, deleting what the page shows under the prefix. */
    method DeleteAll(prefix: string, denied: set<string>, net: nat -> Fate, sizes: nat -> nat)
      returns (r: Result<nat, StoreError>)
      modifies bucket`objects, bucket`requests
      ensures Polite(old(bucket.requests), bucket.requests)
      ensures var all := Matching(old(bucket.objects).Keys, store, prefix);
              && Without(old(bucket.objects), bucket.objects, all)
              && (r.Ok? ==> r.value == |all| && bucket.objects == old(bucket.objects) - all)
              && (AllServed(net, |old(bucket.requests)|) && all !! denied ==> r.Ok?)
    {
      hide *;
      KeysAreOrdered();
      ServedFrom(net, |bucket.requests|);
      ghost var before, all := bucket.objects, Matching(bucket.objects.Keys, store, prefix);
      ghost var items := Candidates(before.Keys, store + prefix);
      ghost var seen: set<string> := {};
      var deleted, token, more := 0, None, true;
      AtFirst(before, all, bucket.requests);
      while more
        invariant Polite(old(bucket.requests), bucket.requests)
        invariant Reached(all, seen, token, more) && bucket.objects == before - seen && deleted == |seen|
        decreases more, |Beyond(items, KeyLess, token)|
      {
        ghost var sent := bucket.requests;
        var answer;
        SentMore(old(bucket.requests), sent);
        answer, seen := DeletePage(prefix, token, denied, net, sizes, before, seen);
        PoliteThroughout(old(bucket.requests), sent, bucket.requests);
        if answer.Err? {
          return Err(answer.error);
        }
        Shrinks(items, token, answer.value.1);
        deleted, token, more := deleted + answer.value.0, answer.value.1, answer.value.1.Some?;
      }
      AtLast(before, all, seen, token);
      r := Ok(deleted);
    }

    /** One upload of the sweep: skipped unless under the prefix; a denial or an upload already gone is no error. */
    method SweepOne(key: string, id: nat, prefix: string, net: nat -> Fate) returns (r: Result<(), StoreError>)
      requires bucket.Valid() && (id in bucket.uploads ==> bucket.uploads[id].key == key)
      modifies bucket`uploads, bucket`requests
      ensures bucket.Valid() && Polite(old(bucket.requests), bucket.requests)
      ensures if !Under(key, store, prefix) then unchanged(bucket)
              else bucket.uploads == old(bucket.uploads) || bucket.uploads == old(bucket.uploads) - {id}
      ensures r.Ok? && Under(key, store, prefix) && id in bucket.uploads ==> AbortFailed(id, bucket.requests, net)
      ensures !Under(key, store, prefix) ==> r == Ok(())
      ensures var fate := net(|old(bucket.requests)|);
              Under(key, store, prefix) ==>
                && bucket.requests == old(bucket.requests) + [Abort(id)]
                && (fate.Served? || (!fate.Fails? && id !in old(bucket.uploads)) ==> r == Ok(()))
                && (fate.Fails? && Denied(fate.error) ==> r == Ok(()))
                && (fate.Fails? && fate.error.Service? && fate.error.code == Some("NoSuchUpload") ==> r == Ok(()))
                && (fate.Fails? && !Denied(fate.error) && !Missing(fate.error) ==> r == Err(RequestFailed(fate.error)))
    {
      hide Under;
      if net(|bucket.requests|).Fails? {
        DeniedRule(net(|bucket.requests|).error);
        MissingRule(net(|bucket.requests|).error);
      }
      if !Under(key, store, prefix) {
        return Ok(());
      }
      var answer := bucket.AbortUpload(id, net(|bucket.requests|));
      assert bucket.requests[|old(bucket.requests)|] == Abort(id);
      if answer.Ok? || IsAccessDenied(answer.error) || IsGone(answer.error) {
        return Ok(());
      }
      r := Err(RequestFailed(answer.error));
    }

    /** The uploads of one page. */
    method SweepPage(page: seq<(string, nat)>, prefix: string, net: nat -> Fate) returns (r: Result<(), StoreError>)
      requires bucket.Valid() && forall x :: x in page ==> x.1 in bucket.uploads && bucket.uploads[x.1].key == x.0
      modifies bucket`uploads, bucket`requests
      ensures bucket.Valid() && Polite(old(bucket.requests), bucket.requests)
      ensures OnlyUnder(old(bucket.uploads), bucket.uploads, store, prefix)
      ensures r.Ok? ==> forall x :: x in page && Under(x.0, store, prefix) && x.1 in bucket.uploads ==>
                          AbortFailed(x.1, bucket.requests, net)
      ensures AllServed(net, |old(bucket.requests)|) ==> r == Ok(())
    {
      hide Under, AbortFailed;
      for i := 0 to |page|
        invariant bucket.Valid() && Polite(old(bucket.requests), bucket.requests)
        invariant OnlyUnder(old(bucket.uploads), bucket.uploads, store, prefix)
        invariant forall x :: x in page[..i] && Under(x.0, store, prefix) && x.1 in bucket.uploads ==>
                    AbortFailed(x.1, bucket.requests, net)
      {
        assert page[..i + 1] == page[..i] + [page[i]];
        ghost var sent := bucket.requests;
        r := SweepOne(page[i].0, page[i].1, prefix, net);
        FailuresStay(sent, bucket.requests, net);
        PoliteThroughout(old(bucket.requests), sent, bucket.requests);
        if r.Err? {
          return;
        }
      }
      assert page[..|page|] == page;
      r := Ok(());
    }

    /**
    The sweep of open uploads. Uploads outside the prefix are untouched. Unless the listing itself
    was denied, every upload under the prefix is gone when it succeeds, except those whose abort
    request failed; and such a failure does not keep it from the others.
    */
    method Sweep(prefix: string, net: nat -> Fate, sizes: nat -> nat) returns (r: Result<(), StoreError>)
      requires bucket.Valid()
      modifies bucket`uploads, bucket`requests
      ensures bucket.Valid() && Polite(old(bucket.requests), bucket.requests)
      ensures OnlyUnder(old(bucket.uploads), bucket.uploads, store, prefix)
      ensures r.Ok? ==>
                || ListingDenied(bucket.requests, net)
                || forall id :: id in bucket.uploads && Under(bucket.uploads[id].key, store, prefix) ==>
                     AbortFailed(id, bucket.requests, net)
      ensures AllServed(net, |old(bucket.requests)|) ==> r == Ok(())
      ensures var fate := net(|old(bucket.requests)|);
              (fate.Fails? || fate.Lost?) ==>
                r == if Denied(fate.error) then Ok(()) else Err(RequestFailed(fate.error))
    {
      hide Under, AbortFailed, ListingDenied, PairLess;
      PairsAreOrdered();
      ghost var all := Open(bucket.uploads, store + prefix);
      var mark, more := None, true;
      while more
        invariant bucket.Valid() && Polite(old(bucket.requests), bucket.requests)
        invariant OnlyUnder(old(bucket.uploads), bucket.uploads, store, prefix)
        invariant Swept(bucket.uploads, bucket.requests, net, mark, more, store, prefix)
        invariant |old(bucket.requests)| < |bucket.requests| ==>
                    !net(|old(bucket.requests)|).Fails? && !net(|old(bucket.requests)|).Lost?
        invariant |bucket.requests| == |old(bucket.requests)| ==> more
        decreases more, |Beyond(all, PairLess, mark)|
      {
        var number := |bucket.requests|;
        bucket.requests := bucket.requests + [ListUploads];
        if net(number).Fails? || net(number).Lost? {
          DeniedRule(net(number).error);
          if IsAccessDenied(net(number).error) {
            DeniedAt(bucket.requests, net, number);
            return Ok(());
          }
          return Err(RequestFailed(net(number).error));
        }
        ghost var before, sent := bucket.uploads, bucket.requests;
        var page, next := NextPage(Open(bucket.uploads, store + prefix), PairLess, mark, 1 + sizes(number));
        FailuresStay(sent[..number], sent, net);
        r := SweepPage(page, prefix, net);
        PoliteThroughout(old(bucket.requests), sent, bucket.requests);
        if r.Err? {
          return;
        }
        SweepGoesOn(before, bucket.uploads, sent, bucket.requests, net, mark, next, page, store, prefix);
        PairsShrink(all, Open(before, store + prefix), mark, next);
        mark, more := next, next.Some?;
      }
      r := Ok(());
    }

    /**
    `delete_prefix`, for any bucket and any page boundaries. It removes only objects under the
    prefix, component by component, and aborts only uploads under it; a delete request names at
    most a thousand keys. On success nothing under the prefix is left, the count is the number of
    keys there were, and uploads stay open only where listing or aborting them was refused.
    */
    method DeletePrefix(prefix: string, denied: set<string>, net: nat -> Fate, sizes: nat -> nat)
      returns (r: Result<nat, StoreError>)
      requires bucket.Valid()
      modifies bucket`objects, bucket`uploads, bucket`requests
      ensures bucket.Valid() && Polite(old(bucket.requests), bucket.requests)
      ensures ValidatePrefix(prefix).Err? ==> r == Err(InvalidKey(ValidatePrefix(prefix).error)) && unchanged(bucket)
      ensures var all := Matching(old(bucket.objects).Keys, store, StripSlash(prefix));
              && Without(old(bucket.objects), bucket.objects, all)
              && (r.Ok? ==>
                    && r.value == |all| && bucket.objects == old(bucket.objects) - all
                    && (|| ListingDenied(bucket.requests, net)
                        || forall id ::
                             id in bucket.uploads && Under(bucket.uploads[id].key, store, StripSlash(prefix)) ==>
                               AbortFailed(id, bucket.requests, net)))
      ensures OnlyUnder(old(bucket.uploads), bucket.uploads, store, StripSlash(prefix))
      ensures var all := Matching(old(bucket.objects).Keys, store, StripSlash(prefix));
              ValidatePrefix(prefix).Ok? && AllServed(net, |old(bucket.requests)|) && all !! denied ==> r.Ok?
    {
      hide *;
      ServedFrom(net, |bucket.requests|);
      ghost var all := Matching(bucket.objects.Keys, store, StripSlash(prefix));
      AtFirst(bucket.objects, all, bucket.requests);
      AllKept(bucket.uploads, store, StripSlash(prefix));
      if ValidatePrefix(prefix).Err? {
        return Err(InvalidKey(ValidatePrefix(prefix).error));
      }
      r := DeleteAll(StripSlash(prefix), denied, net, sizes);
      if r.Err? {
        return;
      }
      ghost var sent := bucket.requests;
      SentMore(old(bucket.requests), sent);
      var swept := Sweep(StripSlash(prefix), net, sizes);
      PoliteThroughout(old(bucket.requests), sent, bucket.requests);
      if swept.Err? {
        return Err(swept.error);
      }
    }
  }

  lemma AllKept(uploads: map<nat, Upload>, store: string, prefix: string)
    ensures OnlyUnder(uploads, uploads, store, prefix)
  {}

  /** Everything under the prefix up to `mark`, or everything at all, is gone or could not be aborted. */
  ghost predicate Swept(uploads: map<nat, Upload>, requests: seq<Request>, net: nat -> Fate,
                        mark: Option<(string, nat)>, more: bool, store: string, prefix: string) {
    forall id :: id in uploads && Under(uploads[id].key, store, prefix) &&
                 (more ==> mark.Some? && !PairLess(mark.value, (uploads[id].key, id))) ==>
      AbortFailed(id, requests, net)
  }

  lemma SweepGoesOn(before: map<nat, Upload>, now: map<nat, Upload>, sent: seq<Request>, requests: seq<Request>,
                    net: nat -> Fate, mark: Option<(string, nat)>, next: Option<(string, nat)>,
                    page: seq<(string, nat)>, store: string, prefix: string)
    requires Swept(before, sent, net, mark, true, store, prefix) && sent <= requests
    requires forall id :: id in now ==> id in before && now[id] == before[id]
    requires var items := Open(before, store + prefix);
             if next.None? then Elements(page) == Beyond(items, PairLess, mark)
             else Elements(page) + Beyond(items, PairLess, next) == Beyond(items, PairLess, mark)
    requires forall x :: x in page && Under(x.0, store, prefix) && x.1 in now ==> AbortFailed(x.1, requests, net)
    ensures Swept(now, requests, net, next, next.Some?, store, prefix)
  {
    FailuresStay(sent, requests, net);
    hide AbortFailed, PairLess;
    var items := Open(before, store + prefix);
    forall id | id in now && Under(now[id].key, store, prefix) &&
                (next.Some? ==> !PairLess(next.value, (now[id].key, id)))
      ensures AbortFailed(id, requests, net)
    {
      UnderIsCandidate(now[id].key, store, prefix);
      var x := (now[id].key, id);
      assert x in items;
      if x in Beyond(items, PairLess, mark) {
        assert x in Elements(page);
      }
    }
  }

  lemma PairsShrink(
      all: set<(string, nat)>, items: set<(string, nat)>, mark: Option<(string, nat)>, next: Option<(string, nat)>)
    requires IsTotalOrder(PairLess) && items <= all
    requires next.Some? ==> next.value in Beyond(items, PairLess, mark)
    ensures next.Some? ==> |Beyond(all, PairLess, next)| < |Beyond(all, PairLess, mark)|
  {
    hide PairLess;
    if next.Some? {
      assert next.value in Beyond(all, PairLess, mark) && next.value !in Beyond(all, PairLess, next);
      assert Beyond(all, PairLess, next) <= Beyond(all, PairLess, mark);
      SmallerSet(Beyond(all, PairLess, next), Beyond(all, PairLess, mark));
    }
  }

  lemma DeniedAt(requests: seq<Request>, net: nat -> Fate, n: nat)
    requires n < |requests| && requests[n] == ListUploads
    requires (net(n).Fails? || net(n).Lost?) && IsAccessDenied(net(n).error)
    ensures ListingDenied(requests, net)
  {}

  /** The uploads a listing with the string prefix `request` returns. */
  function Open(uploads: map<nat, Upload>, request: string): set<(string, nat)> {
    set id | id in uploads && request <= uploads[id].key :: (uploads[id].key, id)
  }

  ghost predicate OnlyUnder(before: map<nat, Upload>, now: map<nat, Upload>, store: string, prefix: string) {
    && (forall id :: id in now ==> id in before && now[id] == before[id])
    && (forall id :: id in before && !Under(before[id].key, store, prefix) ==> id in now)
  }

  /** Some request to abort upload `id` failed. */
  ghost predicate AbortFailed(id: nat, requests: seq<Request>, net: nat -> Fate) {
    exists n :: 0 <= n < |requests| && requests[n] == Abort(id) && net(n).Fails?
  }

  lemma FailuresStay(before: seq<Request>, now: seq<Request>, net: nat -> Fate)
    requires before <= now
    ensures forall id :: AbortFailed(id, before, net) ==> AbortFailed(id, now, net)
  {
    forall id | AbortFailed(id, before, net) ensures AbortFailed(id, now, net) {
      var n :| 0 <= n < |before| && before[n] == Abort(id) && net(n).Fails?;
      assert now[n] == Abort(id);
    }
  }

  ghost predicate ListingDenied(requests: seq<Request>, net: nat -> Fate) {
    exists n ::
      && 0 <= n < |requests| && requests[n] == ListUploads
      && (net(n).Fails? || net(n).Lost?) && IsAccessDenied(net(n).error)
  }

  /** A refusal by policy, as opposed to unusable credentials. */
  predicate IsAccessDenied(e: SdkError) {
    e.Service? && (e.code == Some("AccessDenied") || (e.status == 403 && !IsTokenCode(e.code)))
  }

  predicate IsTokenCode(code: Option<string>) {
    code == Some("InvalidToken") || code == Some("ExpiredToken") || code == Some("TokenRefreshRequired")
  }

  /** An upload completed or aborted by its owner meanwhile. */
  predicate IsGone(e: SdkError) {
    && e.Service? && e.code != Some("NoSuchBucket")
    && (|| e.code == Some("NoSuchUpload")
        || (!IsTokenCode(e.code) && (e.status == 404 || e.code == Some("NoSuchKey") || e.code == Some("NotFound"))))
  }

  /** The refusal by policy, told by status and code. */
  ghost predicate Denied(e: SdkError) {
    && e.Service?
    && (|| e.code == Some("AccessDenied")
        || (e.status == 403 && e.code !in {Some("InvalidToken"), Some("ExpiredToken"), Some("TokenRefreshRequired")}))
  }

  /** What is gone already, told by status and code. */
  ghost predicate Missing(e: SdkError) {
    && e.Service? && e.code != Some("NoSuchBucket")
    && (|| e.code in {Some("NoSuchUpload"), Some("NoSuchKey"), Some("NotFound")}
        || (e.status == 404 && e.code !in {Some("InvalidToken"), Some("ExpiredToken"), Some("TokenRefreshRequired")}))
  }

  lemma DeniedRule(e: SdkError)
    ensures IsAccessDenied(e) <==> Denied(e)
  {
  }

  lemma MissingRule(e: SdkError)
    ensures IsGone(e) <==> Missing(e)
  {
  }

  lemma ServedFrom(net: nat -> Fate, from: nat)
    ensures AllServed(net, from) ==> forall i :: from <= i ==> AllServed(net, i) && net(i).Served?
  {
  }

  lemma SentMore(before: seq<Request>, now: seq<Request>)
    requires Polite(before, now)
    ensures |before| <= |now|
  {
  }

  lemma AtFirst(before: map<string, Bytes>, all: set<string>, sent: seq<Request>)
    ensures Reached(all, {}, None, true) && before == before - {} && Polite(sent, sent)
    ensures Without(before, before, all)
  {
    assert Beyond(all, KeyLess, None) == all;
    assert before == before - {};
  }

  lemma AtLast(before: map<string, Bytes>, all: set<string>, seen: set<string>, token: Option<string>)
    requires Reached(all, seen, token, false)
    ensures seen == all && Without(before, before - seen, all)
  {
  }

  lemma JustListed(before: seq<Request>)
    ensures Polite(before, before + [List])
  {}

  lemma PoliteThroughout(first: seq<Request>, second: seq<Request>, third: seq<Request>)
    requires Polite(first, second) && Polite(second, third)
    ensures Polite(first, third)
  {
    assert third[|first|..] == second[|first|..] + third[|second|..];
  }

  lemma NothingYet(before: map<string, Bytes>, seen: set<string>, token: Option<string>, store: string, prefix: string)
    requires Reached(Matching(before.Keys, store, prefix), seen, token, true)
    ensures Without(before, before - seen, Matching(before.Keys, store, prefix))
  {
  }

  /** Deleting what earlier pages showed takes nothing from the pages to come. */
  lemma StillThere(before: map<string, Bytes>, seen: set<string>, token: Option<string>, next: Option<string>,
                   store: string, prefix: string, chosen: seq<string>)
    requires IsTotalOrder(KeyLess) && Reached(Matching(before.Keys, store, prefix), seen, token, true)
    requires Ascending(chosen, KeyLess)
    requires var left := Matching((before - seen).Keys, store, prefix);
             if next.None? then Elements(chosen) == Beyond(left, KeyLess, token)
             else Elements(chosen) + Beyond(left, KeyLess, next) == Beyond(left, KeyLess, token)
                  && Elements(chosen) !! Beyond(left, KeyLess, next)
    requires next.Some? ==>
               && (token.Some? ==> KeyLess(token.value, next.value))
               && next.value in Beyond(Candidates((before - seen).Keys, store + prefix), KeyLess, token)
    ensures Reached(Matching(before.Keys, store, prefix), seen + Elements(chosen), next, next.Some?)
    ensures seen <= Matching(before.Keys, store, prefix) && Elements(chosen) <= Matching(before.Keys, store, prefix)
    ensures |seen + Elements(chosen)| == |seen| + |chosen|
    ensures next.Some? ==>
              && (token.Some? ==> KeyLess(token.value, next.value))
              && next.value in Beyond(Candidates(before.Keys, store + prefix), KeyLess, token)
    ensures before - seen - Elements(chosen) == before - (seen + Elements(chosen))
  {
    hide *;
    AscendingIsDistinct(chosen, KeyLess);
    LeftToMatch(before, seen, token, store, prefix);
    Ahead(Matching(before.Keys, store, prefix), seen, token, next, Elements(chosen));
    MinusTwice(before, seen, Elements(chosen));
  }

  lemma MinusTwice(before: map<string, Bytes>, a: set<string>, b: set<string>)
    ensures before - a - b == before - (a + b)
  {}

  lemma LeftToMatch(before: map<string, Bytes>, seen: set<string>, token: Option<string>, store: string, prefix: string)
    ensures Matching((before - seen).Keys, store, prefix) == Matching(before.Keys, store, prefix) - seen
    ensures Beyond(Candidates((before - seen).Keys, store + prefix), KeyLess, token) <=
            Beyond(Candidates(before.Keys, store + prefix), KeyLess, token)
  {
    hide Under, KeyLess;
  }

  lemma Ahead(all: set<string>, seen: set<string>, token: Option<string>, next: Option<string>, chosen: set<string>)
    requires IsTotalOrder(KeyLess) && Reached(all, seen, token, true)
    requires if next.None? then chosen == Beyond(all - seen, KeyLess, token)
             else chosen + Beyond(all - seen, KeyLess, next) == Beyond(all - seen, KeyLess, token)
                  && chosen !! Beyond(all - seen, KeyLess, next)
    requires next.Some? && token.Some? ==> KeyLess(token.value, next.value)
    ensures Reached(all, seen + chosen, next, next.Some?) && seen <= all && chosen <= all
    ensures |seen + chosen| == |seen| + |chosen|
  {
    hide KeyLess;
    assert Beyond(all - seen, KeyLess, token) == Beyond(all, KeyLess, token);
    assert seen !! chosen;
    if next.Some? {
      assert Beyond(all - seen, KeyLess, next) == Beyond(all, KeyLess, next);
    }
  }

  lemma StillWithout(before: map<string, Bytes>, current: map<string, Bytes>, now: map<string, Bytes>,
                     seen: set<string>, chosen: set<string>, all: set<string>)
    requires current == before - seen && Without(current, now, chosen) && seen <= all && chosen <= all
    ensures Without(before, now, all)
  {
    var gone: set<string> :| gone <= chosen && now == current - gone;
    assert now == before - (seen + gone);
  }

  /** Whatever was sent since, no delete request named more than a thousand keys. */
  ghost predicate Polite(before: seq<Request>, now: seq<Request>) {
    before <= now && SmallBatches(now[|before|..])
  }

  ghost predicate SmallBatches(requests: seq<Request>) {
    forall i :: 0 <= i < |requests| && requests[i].Delete? ==> 0 < |requests[i].keys| <= 1000
  }

  /** `after` is `before` without some of `keys`. */
  ghost predicate Without(before: map<string, Bytes>, after: map<string, Bytes>, keys: set<string>) {
    exists gone: set<string> :: gone <= keys && after == before - gone
  }

  lemma Deleted(before: map<string, Bytes>, keys: seq<string>, i: nat, j: nat, after: map<string, Bytes>)
    requires i <= j <= |keys|
    requires exists gone: set<string> :: gone <= Elements(keys[i..j]) && after == before - Elements(keys[..i]) - gone
    ensures Without(before, after, Elements(keys))
    ensures before - Elements(keys[..i]) - Elements(keys[i..j]) == before - Elements(keys[..j])
  {
    var done, gone :| done == Elements(keys[..i]) && gone <= Elements(keys[i..j]) && after == before - done - gone;
    assert done + gone <= Elements(keys) && after == before - (done + gone);
    assert Elements(keys[..i]) + Elements(keys[i..j]) == Elements(keys[..j]) by {
      assert keys[..i] + keys[i..j] == keys[..j];
    }
  }

  /** `seen` is what is under the prefix up to `token`, or all of it once there is no more. */
  ghost predicate Reached(all: set<string>, seen: set<string>, token: Option<string>, more: bool) {
    if more then seen + Beyond(all, KeyLess, token) == all && seen !! Beyond(all, KeyLess, token)
    else seen == all
  }

  lemma Continue(all: set<string>, fulls: seq<string>, chosen: seq<string>, token: Option<string>, next: Option<string>)
    requires IsTotalOrder(KeyLess) && Ascending(fulls, KeyLess) && Ascending(chosen, KeyLess)
    requires Reached(all, Elements(fulls), token, true)
    requires if next.None? then Elements(chosen) == Beyond(all, KeyLess, token)
             else Elements(chosen) + Beyond(all, KeyLess, next) == Beyond(all, KeyLess, token)
                  && Elements(chosen) !! Beyond(all, KeyLess, next)
    ensures Ascending(fulls + chosen, KeyLess) && Reached(all, Elements(fulls + chosen), next, next.Some?)
  {
    hide KeyLess;
    assert Elements(fulls + chosen) == Elements(fulls) + Elements(chosen);
    forall i, j | 0 <= i < |fulls| && 0 <= j < |chosen| ensures KeyLess(fulls[i], chosen[j]) {
      assert fulls[i] in Elements(fulls) && chosen[j] in Elements(chosen);
    }
  }

  lemma Shrinks(items: set<string>, token: Option<string>, next: Option<string>)
    requires IsTotalOrder(KeyLess)
    requires next.Some? ==>
               next.value in Beyond(items, KeyLess, token) && (token.Some? ==> KeyLess(token.value, next.value))
    ensures next.Some? ==> |Beyond(items, KeyLess, next)| < |Beyond(items, KeyLess, token)|
  {
    hide KeyLess;
    if next.Some? {
      assert Beyond(items, KeyLess, next) < Beyond(items, KeyLess, token);
      SmallerSet(Beyond(items, KeyLess, next), Beyond(items, KeyLess, token));
    }
  }

  // ---- What a listing reports. ----

  /** The store keys among `fulls` that pass the key rule, with sizes. */
  function Report(fulls: seq<string>, store: string, objects: map<string, Bytes>): seq<ObjectMeta>
    requires forall i :: 0 <= i < |fulls| ==> fulls[i] in objects && store <= fulls[i]
  {
    if fulls == [] then []
    else
      var rest, last := fulls[..|fulls| - 1], fulls[|fulls| - 1];
      Report(rest, store, objects) +
      (if ValidateKey(last[|store|..]).Ok? then [ObjectMeta(last[|store|..], |objects[last]|)] else [])
  }

  /** `metas` lists, in key order and with their sizes, exactly the valid keys under the prefix. */
  ghost predicate IsListing(metas: seq<ObjectMeta>, objects: map<string, Bytes>, store: string, prefix: string) {
    && (forall i, j :: 0 <= i < j < |metas| ==> KeyLess(metas[i].key, metas[j].key))
    && (forall m :: m in metas ==> Listed(m, objects, store, prefix))
    && forall key :: store + key in objects && KeyMatchesPrefix(key, prefix) && ValidateKey(key).Ok? ==>
         ObjectMeta(key, |objects[store + key]|) in metas
  }

  ghost predicate Listed(m: ObjectMeta, objects: map<string, Bytes>, store: string, prefix: string) {
    && store + m.key in objects && m.size == |objects[store + m.key]|
    && KeyMatchesPrefix(m.key, prefix) && ValidateKey(m.key).Ok?
  }

  lemma {:induction false} ReportIsOrdered(fulls: seq<string>, store: string, objects: map<string, Bytes>)
    requires forall i :: 0 <= i < |fulls| ==> fulls[i] in objects && store <= fulls[i]
    requires Ascending(fulls, KeyLess)
    ensures var metas := Report(fulls, store, objects);
            && (forall i, j :: 0 <= i < j < |metas| ==> KeyLess(metas[i].key, metas[j].key))
            && (forall m :: m in metas <==>
                  store + m.key in fulls && m.size == |objects[store + m.key]| && ValidateKey(m.key).Ok?)
  {
    hide ValidateKey, KeyLess;
    if fulls == [] {
    } else {
      var rest, last := fulls[..|fulls| - 1], fulls[|fulls| - 1];
      ReportIsOrdered(rest, store, objects);
      var key, before := last[|store|..], Report(rest, store, objects);
      assert store + key == last;
      forall m | m in before ensures KeyLess(m.key, key) {
        var i :| 0 <= i < |rest| && rest[i] == store + m.key;
        assert KeyLess(fulls[i], last);
        OrderUnderPrefix(store, m.key, key);
      }
      forall m ensures m in Report(fulls, store, objects) <==>
                       store + m.key in fulls && m.size == |objects[store + m.key]| && ValidateKey(m.key).Ok? {
        assert store + m.key in fulls <==> store + m.key in rest || store + m.key == last;
        assert store + m.key == last <==> m.key == key by { assert (store + m.key)[|store|..] == m.key; }
      }
    }
  }

  lemma ReportIsListing(fulls: seq<string>, store: string, prefix: string, objects: map<string, Bytes>)
    requires Ascending(fulls, KeyLess) && Elements(fulls) == Matching(objects.Keys, store, prefix)
    ensures forall i :: 0 <= i < |fulls| ==> fulls[i] in objects && store <= fulls[i]
    ensures IsListing(Report(fulls, store, objects), objects, store, prefix)
  {
    forall i | 0 <= i < |fulls| ensures fulls[i] in objects && store <= fulls[i] {
      assert fulls[i] in Elements(fulls);
    }
    ReportIsOrdered(fulls, store, objects);
    hide ValidateKey, KeyLess, KeyMatchesPrefix;
    var metas := Report(fulls, store, objects);
    forall key ensures store + key in fulls <==> store + key in objects && KeyMatchesPrefix(key, prefix) {
      assert (store + key)[|store|..] == key;
      assert store + key in fulls <==> store + key in Elements(fulls);
    }
  }
}
