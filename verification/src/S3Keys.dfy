/**
Keys under the bucket prefix, and the configuration rules checked when the S3 store is opened.
*/
module S3Keys {
  import opened Wrappers
  import opened Keys
  import opened KeyMatching

  const MIN_PART_SIZE := 5 * 1024 * 1024
  const MAX_PART_SIZE := 5 * 1024 * 1024 * 1024
  const MAX_STORE_PREFIX_LEN := 512

  datatype ConfigError =
    | EmptyBucket
    | PartTooSmall
    | PartTooLarge
    | NoConcurrency
    | BadPrefix(rule: KeyError)
    | PrefixTooLong(bytes: nat)
    | DirectoryBucket

  /** Without its leading separators. */
  function TrimStart(s: string): string {
    if s != "" && s[0] == '/' then TrimStart(s[1..]) else s
  }

  function NormalizeStorePrefix(prefix: string): Result<string, ConfigError> {
    var trimmed := TrimStart(prefix);
    if trimmed == "" then Ok("")
    else
      var bare := StripSlash(trimmed);
      match ValidateKey(bare)
      case Err(rule) => Err(BadPrefix(rule))
      case Ok(_) =>
        var normalized := bare + "/";
        if ByteLen(normalized) > MAX_STORE_PREFIX_LEN then Err(PrefixTooLong(ByteLen(normalized)))
        else Ok(normalized)
  }

  /** What a normalized prefix is: nothing, or a valid key and a separator, within the limit. */
  ghost predicate IsStorePrefix(p: string) {
    p == "" ||
    (|p| > 1 && p[|p| - 1] == '/' && ValidateKey(p[..|p| - 1]).Ok? && ByteLen(p) <= MAX_STORE_PREFIX_LEN)
  }

  lemma ValidKeyEnds(key: string)
    requires ValidateKey(key).Ok?
    ensures key != "" && key[0] != '/' && key[|key| - 1] != '/'
  {
    KeyRule(key);
    NoEmptyPiece(key, 0);
    NoEmptyPiece(key, |key|);
  }

  lemma NoEmptyPiece(key: string, i: nat)
    requires GoodKey(key) && i <= |key|
    ensures !Piece(key, i, i)
  {
    assert !PlainName(key[i..i]);
  }

  /** Normalizing yields a store prefix, and leaves a store prefix alone. */
  lemma NormalizedIsStorePrefix(prefix: string)
    ensures var r := NormalizeStorePrefix(prefix);
            r.Ok? ==> IsStorePrefix(r.value) && NormalizeStorePrefix(r.value) == r
    ensures IsStorePrefix(prefix) ==> NormalizeStorePrefix(prefix) == Ok(prefix)
  {
    var r := NormalizeStorePrefix(prefix);
    if r.Ok? && r.value != "" {
      Unchanged(r.value);
    }
    if IsStorePrefix(prefix) && prefix != "" {
      Unchanged(prefix);
    }
  }

  lemma {:induction false} TrimmedAt(s: string, n: nat)
    requires n <= |s| && (forall i :: 0 <= i < n ==> s[i] == '/') && (n < |s| ==> s[n] != '/')
    ensures TrimStart(s) == s[n..]
  {
    if n == 0 {
    } else {
      TrimmedAt(s[1..], n - 1);
      assert s[1..][n - 1..] == s[n..];
    }
  }

  /** A key that may be a store prefix, once it has its separator. */
  ghost predicate MayPrefix(key: string) {
    GoodKey(key) && ByteLen(key) + 1 <= 512
  }

  /**
  What a prefix with `n` leading separators becomes: nothing if there is nothing more, a good key
  and a separator if what follows is that key, with or without the separator, and otherwise it is
  refused.
  */
  lemma NormalizeRule(prefix: string, n: nat, key: string)
    requires n <= |prefix| && (forall i :: 0 <= i < n ==> prefix[i] == '/') && (n < |prefix| ==> prefix[n] != '/')
    ensures var r, rest := NormalizeStorePrefix(prefix), prefix[n..];
            && (rest == "" ==> r == Ok(""))
            && (MayPrefix(key) && (rest == key || rest == key + "/") ==> r == Ok(key + "/"))
            && (rest != "" && !MayPrefix(StripSlash(rest)) ==> r.Err?)
            && (r.Err? && !GoodKey(StripSlash(rest)) ==> r.error.BadPrefix?)
            && (r.Err? && GoodKey(StripSlash(rest)) ==> r.error == PrefixTooLong(ByteLen(StripSlash(rest)) + 1))
            && (r.Ok? && rest != "" ==> r.value == StripSlash(rest) + "/")
  {
    TrimmedAt(prefix, n);
    var rest := prefix[n..];
    KeyRule(StripSlash(rest));
    SeparatorAdded(StripSlash(rest));
    if MayPrefix(key) && (rest == key || rest == key + "/") { BareIs(rest, key); }
    hide GoodKey, ValidateKey, ByteLen, TrimStart, StripSlash;
  }

  lemma SeparatorAdded(key: string)
    ensures ByteLen(key + "/") == ByteLen(key) + 1
  {
    ByteLenConcat(key, "/");
    OneByte();
  }

  lemma BareIs(rest: string, key: string)
    requires GoodKey(key) && (rest == key || rest == key + "/")
    ensures rest != "" && StripSlash(rest) == key
  {
    KeyRule(key);
    ValidKeyEnds(key);
    hide GoodKey, ValidateKey, ByteLen;
  }

  lemma OneByte()
    ensures ByteLen("/") == 1
  {
    assert "/"[1..] == "";
  }

  lemma Unchanged(p: string)
    requires |p| > 1 && p[|p| - 1] == '/' && ValidateKey(p[..|p| - 1]).Ok? && ByteLen(p) <= MAX_STORE_PREFIX_LEN
    ensures NormalizeStorePrefix(p) == Ok(p)
  {
    hide ValidateKey, ByteLen;
    ValidKeyEnds(p[..|p| - 1]);
    assert p[0] == p[..|p| - 1][0];
    assert TrimStart(p) == p;
    assert StripSlash(p) == p[..|p| - 1];
    hide TrimStart, StripSlash;
    assert p[..|p| - 1] + "/" == p;
  }

  // ---- Keys under the prefix. ----

  function FullKey(prefix: string, key: string): Result<string, KeyError> {
    var full := prefix + key;
    if ByteLen(full) > MAX_KEY_LEN then Err(KeyTooLong(ByteLen(key))) else Ok(full)
  }

  lemma {:induction false} JoinAcross(a: seq<string>, b: seq<string>)
    requires |a| > 0 && |b| > 0
    ensures Join(a + b) == Join(a) + "/" + Join(b)
  {
    assert (a + b)[1..] == a[1..] + b;
    if |a| == 1 {
    } else {
      JoinAcross(a[1..], b);
    }
  }

  lemma SplitAfterSeparator(a: string, b: string)
    ensures Split(a + "/" + b) == Split(a) + Split(b)
  {
    hide Split, Join;
    JoinAcross(Split(a), Split(b));
    JoinOfSplit(a);
    JoinOfSplit(b);
    SplitIsSlashFree(a);
    SplitIsSlashFree(b);
    SplitOfJoin(Split(a) + Split(b));
  }

  /** The components of a full key are the prefix's and then the key's. */
  lemma FullComponents(prefix: string, key: string)
    requires IsStorePrefix(prefix)
    ensures Split(prefix + key) == (if prefix == "" then [] else Split(prefix[..|prefix| - 1])) + Split(key)
  {
    if prefix == "" {
      assert prefix + key == key;
    } else {
      var bare := prefix[..|prefix| - 1];
      assert prefix + key == bare + "/" + key;
      SplitAfterSeparator(bare, key);
    }
  }

  /**
  Under a store prefix of `n` bytes a valid key is refused if and only if it is longer than
  `1024 - n` bytes, so one of at most 512 bytes never is; an accepted one is again a valid key.
  */
  lemma FullKeyRule(prefix: string, key: string)
    requires IsStorePrefix(prefix) && ValidateKey(key).Ok?
    ensures FullKey(prefix, key).Ok? <==> ByteLen(key) <= 1024 - ByteLen(prefix)
    ensures ByteLen(key) <= 512 ==> FullKey(prefix, key).Ok?
    ensures FullKey(prefix, key) == Ok(prefix + key) || FullKey(prefix, key) == Err(KeyTooLong(ByteLen(key)))
    ensures FullKey(prefix, key).Ok? ==> ValidateKey(FullKey(prefix, key).value).Ok?
  {
    ByteLenConcat(prefix, key);
    if FullKey(prefix, key).Ok? {
      FullComponents(prefix, key);
      ComponentsRule(Split(key));
      ComponentsRule(Split(prefix + key));
      hide PlainName, Split, ValidateComponents, ByteLen;
      if prefix != "" {
        ComponentsRule(Split(prefix[..|prefix| - 1]));
      }
    }
  }

  /** The prefix neither merges keys nor changes what matches: listing under it is listing the store. */
  lemma PrefixingKeepsMatching(prefix: string, key: string, other: string)
    requires IsStorePrefix(prefix)
    ensures (prefix + key)[|prefix|..] == key
    ensures prefix + key == prefix + other ==> key == other
    ensures other != "" ==> (KeyMatchesPrefix(prefix + key, prefix + other) <==> KeyMatchesPrefix(key, other))
  {
    assert (prefix + key)[|prefix|..] == key && (prefix + other)[|prefix|..] == other;
    if other != "" {
      AlignedIsComponentPrefix(prefix + key, prefix + other);
      AlignedIsComponentPrefix(key, other);
      FullComponents(prefix, key);
      FullComponents(prefix, other);
      hide Split, Aligned;
      var p := if prefix == "" then [] else Split(prefix[..|prefix| - 1]);
      var a, b := Split(other), Split(key);
      if p + a <= p + b {
        assert a == (p + a)[|p|..] <= (p + b)[|p|..] == b;
      }
    }
  }

  // ---- Opening the store. ----

  datatype S3Config = S3Config(bucket: string, prefix: string, partSize: nat, maxConcurrent: nat)

  /** The Unicode White_Space property. */
  predicate IsWhitespace(c: char) {
    var n := c as int;
    0x9 <= n <= 0xD || n == 0x20 || n == 0x85 || n == 0xA0 || n == 0x1680 || 0x2000 <= n <= 0x200A ||
    n == 0x2028 || n == 0x2029 || n == 0x202F || n == 0x205F || n == 0x3000
  }

  predicate EndsWith(s: string, suffix: string) {
    |suffix| <= |s| && s[|s| - |suffix|..] == suffix
  }

  /** The code points with the property. */
  lemma WhitespaceRule(c: char)
    ensures IsWhitespace(c) <==>
              c as int in {0x9, 0xA, 0xB, 0xC, 0xD, 0x20, 0x85, 0xA0, 0x1680, 0x2000, 0x2001, 0x2002, 0x2003, 0x2004,
                           0x2005, 0x2006, 0x2007, 0x2008, 0x2009, 0x200A, 0x2028, 0x2029, 0x202F, 0x205F, 0x3000}
  {
  }

  /** The part size and the normalized prefix of an acceptable configuration. */
  function CheckConfig(config: S3Config): Result<(nat, string), ConfigError> {
    if forall i :: 0 <= i < |config.bucket| ==> IsWhitespace(config.bucket[i]) then Err(EmptyBucket)
    else if config.partSize < MIN_PART_SIZE then Err(PartTooSmall)
    else if config.partSize > MAX_PART_SIZE then Err(PartTooLarge)
    else if config.maxConcurrent == 0 then Err(NoConcurrency)
    else
      var prefix :- NormalizeStorePrefix(config.prefix);
      if EndsWith(config.bucket, "--x-s3") || EndsWith(config.bucket, "--xa-s3") then Err(DirectoryBucket)
      else Ok((config.partSize, prefix))
  }

  lemma OnlyPrefixErrors(prefix: string)
    ensures var r := NormalizeStorePrefix(prefix); r.Err? ==> r.error.BadPrefix? || r.error.PrefixTooLong?
  {
  }

  /** A name that does not consist of white space alone. */
  ghost predicate Named(bucket: string) {
    exists i :: 0 <= i < |bucket| && !IsWhitespace(bucket[i])
  }

  ghost predicate NamesDirectoryBucket(bucket: string) {
    exists name :: bucket == name + "--x-s3" || bucket == name + "--xa-s3"
  }

  lemma DirectoryBucketRule(bucket: string)
    ensures EndsWith(bucket, "--x-s3") || EndsWith(bucket, "--xa-s3") <==> NamesDirectoryBucket(bucket)
  {
    SuffixRule(bucket, "--x-s3");
    SuffixRule(bucket, "--xa-s3");
    hide EndsWith;
  }

  lemma SuffixRule(s: string, suffix: string)
    ensures EndsWith(s, suffix) <==> exists head :: s == head + suffix
  {
    if EndsWith(s, suffix) {
      assert s == s[..|s| - |suffix|] + suffix;
    }
  }

  /**
  A configuration is accepted exactly when its bucket has a name that is not a directory bucket's,
  its part size is one S3 takes, something may be uploaded at a time, and its prefix is acceptable;
  what is handed on is that part size and the normalized prefix, a store prefix. An error names the
  first of these rules that is broken, the directory bucket's being the last.
  */
  lemma ConfigRule(config: S3Config)
    ensures var r, sized := CheckConfig(config), 5 * 1024 * 1024 <= config.partSize <= 5 * 1024 * 1024 * 1024;
            && (r.Ok? <==>
                  && Named(config.bucket) && sized && config.maxConcurrent > 0
                  && NormalizeStorePrefix(config.prefix).Ok? && !NamesDirectoryBucket(config.bucket))
            && (r.Ok? ==>
                  && r.value.0 == config.partSize && IsStorePrefix(r.value.1)
                  && NormalizeStorePrefix(config.prefix) == Ok(r.value.1))
            && (r == Err(EmptyBucket) <==> !Named(config.bucket))
            && (r == Err(PartTooSmall) <==> Named(config.bucket) && config.partSize < 5 * 1024 * 1024)
            && (r == Err(PartTooLarge) <==> Named(config.bucket) && config.partSize > 5 * 1024 * 1024 * 1024)
            && (r == Err(NoConcurrency) <==> Named(config.bucket) && sized && config.maxConcurrent == 0)
            && (r == Err(DirectoryBucket) <==>
                  && Named(config.bucket) && sized && config.maxConcurrent > 0
                  && NormalizeStorePrefix(config.prefix).Ok? && NamesDirectoryBucket(config.bucket))
  {
    OnlyPrefixErrors(config.prefix);
    NormalizedIsStorePrefix(config.prefix);
    DirectoryBucketRule(config.bucket);
    assert !Named(config.bucket) <==> forall i :: 0 <= i < |config.bucket| ==> IsWhitespace(config.bucket[i]);
    hide NormalizeStorePrefix, IsStorePrefix, NamesDirectoryBucket, EndsWith, IsWhitespace, Named;
  }
}
