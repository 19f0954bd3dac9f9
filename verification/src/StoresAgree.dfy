/**
The two stores list alike: over the keys both can hold, the filesystem walk and the S3 filter give
the same listing.
*/
module StoresAgree {
  import opened Wrappers
  import opened Keys
  import opened KeyMatching
  import opened Ordering
  import opened Chunks
  import FsTree
  import FsList
  import S3Listing
  import S3Put

  /** An ordered sequence is determined by its elements. */
  lemma {:induction false} OrderDetermines(a: seq<string>, b: seq<string>)
    requires Ascending(a, KeyLess) && Ascending(b, KeyLess) && Elements(a) == Elements(b)
    ensures a == b
  {
    KeysAreOrdered();
    hide KeyLess;
    if a == [] {
      assert Elements(a) == {};
      AscendingIsDistinct(b, KeyLess);
    } else {
      assert a[0] in Elements(a);
      var x, y, rest, rest' := a[|a| - 1], b[|b| - 1], a[..|a| - 1], b[..|b| - 1];
      assert x in Elements(b) && y in Elements(a);
      assert x == y;
      assert Elements(a) == Elements(rest) + {x} && Elements(b) == Elements(rest') + {y};
      assert x !in Elements(rest) && y !in Elements(rest');
      assert Elements(rest) == Elements(a) - {x} && Elements(rest') == Elements(b) - {x};
      OrderDetermines(rest, rest');
    }
  }

  /** Tree and bucket hold the same objects under the keys both stores accept and show. */
  ghost predicate SameObjects(es: FsTree.Entries, objects: map<string, Bytes>, store: string) {
    forall key, size :: ValidateKey(key).Ok? ==> (InTree(es, key, size) <==> InBucket(objects, store, key, size))
  }

  ghost predicate InTree(es: FsTree.Entries, key: string, size: nat) {
    var p := FsTree.Names(Split(key));
    p in es && es[p] == FsTree.File(size) && !FsTree.IsTempName(Split(key)[|Split(key)| - 1])
  }

  ghost predicate InBucket(objects: map<string, Bytes>, store: string, key: string, size: nat) {
    store + key in objects && |objects[store + key]| == size
  }

  function TreeKeys(metas: seq<FsList.FileMeta>): seq<string> {
    seq(|metas|, i requires 0 <= i < |metas| => metas[i].key)
  }

  function BucketKeys(metas: seq<S3Put.ObjectMeta>): seq<string> {
    seq(|metas|, i requires 0 <= i < |metas| => metas[i].key)
  }

  /** The same keys in the same order, with the same sizes. */
  lemma StoresListAlike(es: FsTree.Entries, objects: map<string, Bytes>, store: string, prefix: string,
                        fs: seq<FsList.FileMeta>, s3: seq<S3Put.ObjectMeta>)
    requires FsList.IsListing(fs, es, prefix) && S3Listing.IsListing(s3, objects, store, prefix)
    requires SameObjects(es, objects, store)
    ensures TreeKeys(fs) == BucketKeys(s3)
    ensures forall i :: 0 <= i < |fs| ==> fs[i].size == s3[i].size
  {
    var a, b := TreeKeys(fs), BucketKeys(s3);
    forall key ensures key in Elements(a) <==> key in Elements(b) {
      if key in Elements(a) {
        var i :| 0 <= i < |fs| && a[i] == key;
        FsToS3(es, objects, store, prefix, fs[i], s3);
      }
      if key in Elements(b) {
        var i :| 0 <= i < |s3| && b[i] == key;
        S3ToFs(es, objects, store, prefix, fs, s3[i]);
      }
    }
    OrderDetermines(a, b);
    forall i | 0 <= i < |fs| ensures fs[i].size == s3[i].size {
      assert a[i] == b[i];
      SameSize(es, objects, store, prefix, fs[i], s3[i]);
    }
  }

  lemma FsToS3(es: FsTree.Entries, objects: map<string, Bytes>, store: string, prefix: string,
               m: FsList.FileMeta, s3: seq<S3Put.ObjectMeta>)
    requires FsList.Listed(m, es, prefix) && S3Listing.IsListing(s3, objects, store, prefix)
    requires SameObjects(es, objects, store)
    ensures m.key in Elements(BucketKeys(s3))
  {
    assert InTree(es, m.key, m.size);
    assert InBucket(objects, store, m.key, m.size);
    hide Split, ValidateKey, KeyMatchesPrefix;
    var n := S3Put.ObjectMeta(m.key, |objects[store + m.key]|);
    assert n in s3;
    var i :| 0 <= i < |s3| && s3[i] == n;
    assert BucketKeys(s3)[i] == m.key;
  }

  lemma S3ToFs(es: FsTree.Entries, objects: map<string, Bytes>, store: string, prefix: string,
               fs: seq<FsList.FileMeta>, m: S3Put.ObjectMeta)
    requires S3Listing.Listed(m, objects, store, prefix) && FsList.IsListing(fs, es, prefix)
    requires SameObjects(es, objects, store)
    ensures m.key in Elements(TreeKeys(fs))
  {
    assert InBucket(objects, store, m.key, m.size);
    assert InTree(es, m.key, m.size);
    var n := FsList.FileMeta(m.key, m.size);
    assert FsList.Listed(n, es, prefix);
    var i :| 0 <= i < |fs| && fs[i] == n;
    assert TreeKeys(fs)[i] == m.key;
  }

  lemma SameSize(es: FsTree.Entries, objects: map<string, Bytes>, store: string, prefix: string,
                 m: FsList.FileMeta, n: S3Put.ObjectMeta)
    requires FsList.Listed(m, es, prefix) && S3Listing.Listed(n, objects, store, prefix) && m.key == n.key
    requires SameObjects(es, objects, store)
    ensures m.size == n.size
  {
    assert InTree(es, m.key, m.size);
    assert InBucket(objects, store, m.key, m.size);
  }
}
