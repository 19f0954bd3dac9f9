# ExtendDB: cache, backup store and build date, verified

A Dafny model of three parts of ExtendDB and proofs of what they promise.

**The stale-while-revalidate cache** that stands in front of the credential and policy stores.
Gets, single-flight loads, background refreshes and invalidations share one map; an epoch counter,
a flag per entry and a comparison of entry identity keep old loads from overwriting newer state.
`SwrModel` is the cache as a transition system: every `await` and every atomic operation is an
event, any number of calls, refreshes and invalidations interleave, the backing source changes
between any two events, and eviction may happen at any time. `SwrInvariants`, `SwrFlags`,
`SwrAccounting`, `SwrSafety`, `SwrMonotone` and `SwrFreshReads` are what every event keeps;
`SwrRuns` says what that means for every run. `SwrCache` is the cache as an object whose methods
assign its fields, and `SwrGet` its functions with the control flow they have in the source, other
tasks running at every point where they may; the object's history is always a run, so the theorems
hold of it. What a function comes to when no other task runs meanwhile is pinned down exactly, in
clock readings, keys and values. `Credentials` is the credential store on top.

The write-back of a refresh is three steps, compare the epoch, compare the slot, insert, with
nothing held in between. The source's comments say the epoch check closes the race with an
invalidation; the code closes it up to the moment of the check. So two promises fail in some runs,
and for both the exact condition is proved over all runs, with what each guard contributes.

- `SwrEpochGuard`: a run is safe if and only if no refresh inserted a load although an invalidation
  covering its value began and took effect between the refresh's epoch comparison and its insert,
  whenever the load began (`SafetyByEvents`); if every insert finds its epoch still current, none
  did (`HeldEpochsAreSafe`).
- `SwrSlotGuard`: the loads of a run stay in order if and only if no refresh inserted its load
  after its slot, since the slot comparison, had received one begun no earlier, nor while one begun
  no later was in flight (`OrderByEvents`); if no slot changes between a refresh's comparison and
  its insert, every insert is in its turn and the order holds (`HeldSlotsAreOrdered`).

`SwrRace` has a run that breaks each. The results that rest on one of the conditions say so;
everything else holds of every run. `SwrHistory` looks back along a run: which events brought a
refresh to its insert, what an invalidation is made of, what became of an entry its call was bound
to remove, and which clock reading an entry and a call carry.

**The backup object store**, one interface with a filesystem and an S3 implementation. `Keys`,
`KeyMatching` and `S3Keys` are the key rules, `Ordering` and `Utf8` the order of keys, which is the
byte order of their encodings (section 3 of RFC 3629). `Chunks`, `S3Bucket`, `S3Put` and `S3Listing` are
the S3 store's put, list and delete loops against a bucket whose requests fail, lose their answers
or are sent twice. `UploadOwnership` is who answers for a multipart upload when puts are dropped
at any `await`. `FsTree`, `FsList` and `FsDelete` are the filesystem store's walks; `FsPut` its
puts, any number at once, with work left behind on the blocking pool; `FsConcurrentDelete` any
number of deletions of one tree, each of which may be dropped, and `FsPartition` how they divide
the work. `ConditionalCreate` and `S3Create` show that both stores' `put_if_absent` is one atomic
insert-if-absent, `StoresAgree` that both list alike. `FsResults`, `UploadResults` and
`CreateResults` tell over every run exactly when a put reports its object, that there is one
already, or an error, from what its steps and requests came to.

**The build date** (`Calendar`): the closed-form conversion of days to a Gregorian date, equal to
the calendar of section 5.7 and Appendix C of RFC 3339 on every day.

Conditional writes follow section 13.1.2 of RFC 9110, the 412 answer section 15.5.13 of RFC 9110.

`dafny verify dfyconfig.toml` checks the project.

## Model

| member | source | states |
|---|---|---|
| `SwrModel.Validate` | crates/cache/src/swr.rs:79-93 | a configuration is accepted exactly when both limits are positive and neither soft nor negative lifetime exceeds the hard one, and each of the four errors is given exactly when its rule is the first one broken |
| `SwrInvariants.ShapeKept` | crates/cache/src/swr.rs:352-600 | every event of every get, refresh, invalidation and eviction keeps the shape of the state: one loader per key in flight, every slot, call and refresh refers to an entry of its own key, every entry holds what the source held during its load |
| `SwrFlags.FlagsKept` | crates/cache/src/swr.rs:455-486 | every event keeps an entry's refresh flag set exactly while one call has won it or one task runs for it, and never two |
| `SwrAccounting.AccountsKept` | crates/cache/src/swr.rs:116-131 | every event keeps the counters balanced against the calls, refreshes and invalidations under way |
| `SwrSafety.CurrentKept` | crates/cache/src/swr.rs:399-431 | every event keeps the meaning of the epoch check: a load that captured the epoch still current began after every invalidation so far |
| `SwrSafety.SafeExactlyWhen` | crates/cache/src/swr.rs:414-515 | every event keeps it true that an outdated entry is in a slot only while the call that inserted it is bound to remove it, if and only if the event is not the insert of a refresh that an invalidation covering its value has overtaken |
| `SwrSafety.WriteBackIsSafeExactlyWhen` | crates/cache/src/swr.rs:494-515 | the insert of a refresh that passed its checks keeps the cache safe if and only if no invalidation that took effect since its load began covers the value |
| `SwrSlotGuard.OwnKeepsOrder` | crates/cache/src/swr.rs:498-515 | every event, the insert of a refresh that finds its own entry in the slot included, keeps loads in order: what a slot, a flight, a call or an answer holds is no newer than the last load its key received and never older than what an earlier answer saw; a slot receives only later loads, and none is in flight for a key with a full slot |
| `SwrSlotGuard.OwnInsertsAreInTurn` | crates/cache/src/swr.rs:498-515 | in every run whose refreshes all found their own entry at the insert, every insert was later than the last load its slot had received and earlier than any in flight |
| `SwrSlotGuard.OutOfTurnExactlyWhen` | crates/cache/src/swr.rs:498-515 | in a run in order so far, an insert breaks the order exactly when its slot received a load begun no earlier since the refresh compared it, or one begun no later is still in flight |
| `SwrFreshReads.FreshKept` | crates/cache/src/swr.rs:352-441 | once a key is settled after an invalidation, every event but the insert of an overtaken load keeps every later call and answer on that key free of what the invalidation covered |
| `SwrRuns.SafetyExactlyWhen` | crates/cache/src/swr.rs:494-515 | for every run: all its states are safe if and only if none of its events inserted an overtaken load |
| `SwrEpochGuard.SafetyByEvents` | crates/cache/src/swr.rs:489-515 | the same told by events: if and only if no refresh inserted a load although an invalidation covering the value began and took effect since the refresh compared epochs |
| `SwrEpochGuard.UndoesExactlyWhen` | crates/cache/src/swr.rs:489-515 | an insert undoes an invalidation exactly when a covering one began and took effect between that refresh's one epoch comparison and the insert, whenever the load began |
| `SwrEpochGuard.HeldEpochsAreSafe` | crates/cache/src/swr.rs:494-497 | in every run whose refreshes all found their epoch still current at the insert, every state is safe |
| `SwrHistory.StepsInOrder` | crates/cache/src/swr.rs:485-515 | a refresh takes its steps in the order of its code, each at most once |
| `SwrEpochGuard.InvalidationSafety` | crates/cache/src/swr.rs:533-600 | in every run without such an insert, an entry loaded before an invalidation that covers it is in its slot only while the call that inserted it owes its epoch check; with no load of the key pending, the slot is empty or holds a later load |
| `SwrHistory.DebtIsPaid` | crates/cache/src/swr.rs:414-432 | in every run, an entry that a call was bound to remove is gone from its slot once that call has answered, and never comes back |
| `SwrEpochGuard.ReadsAfterInvalidation` | crates/cache/src/swr.rs:529-542 | in every run without such an insert, a get begun after an invalidation took effect, with no load of the key pending then, never answers with a load the invalidation covers and postdates |
| `SwrSlotGuard.OrderByEvents` | crates/cache/src/swr.rs:489-515 | for every run: what its slots received was from ever later loads, any load in flight the latest, if and only if no refresh inserted after its slot, since the comparison, had received a load begun no earlier, nor while one begun no later was in flight |
| `SwrSlotGuard.HeldSlotsAreOrdered` | crates/cache/src/swr.rs:498-515 | in every run in which no slot changed between a refresh's comparison and its insert, the loads stay in order |
| `SwrSlotGuard.SlotsMoveForward` | crates/cache/src/swr.rs:498-515 | in every such run, of two different entries a slot holds one after the other, the later one is from the later load |
| `SwrSlotGuard.LaterReadsAreNoOlder` | crates/cache/src/swr.rs:352-389 | in every such run a get that begins after another answered never answers with an older load |
| `SwrHistory.RefreshReplacesItsOwn` | crates/cache/src/swr.rs:489-515 | in every run, before a refresh inserts it has found its epoch current and, after that, its own entry in the slot; and what it replaces is that entry unless an event since the second check changed the slot |
| `SwrRuns.AnswersAreTruthful` | crates/cache/src/swr.rs:352-389 | every answered value is what the source held at a moment within the load behind it, and one answered without loading was fetched less than its time to live before the call read its clock |
| `SwrRuns.JudgeRule` | crates/cache/src/swr.rs:363-381 | told by clock readings: an entry with a value is fresh exactly while the reading is before fetch plus soft lifetime, stale from then until fetch plus hard lifetime, and a negative one usable exactly until fetch plus its own; a lifetime of zero is never met, and an entry fetched after the clock was read is within any other |
| `SwrRuns.OnlyStaleEntriesAreRefreshed` | crates/cache/src/swr.rs:371-379 | only an entry with a value is ever refreshed in the background, and only once the clock has reached its fetch plus the soft lifetime, or that lifetime is zero |
| `SwrRuns.SteadySourceAnswersLikePassThrough` | crates/cache/src/swr.rs:353-358 | with a source that does not change, every answer of every run is the pass-through cache's |
| `SwrRuns.CountersBalance` | crates/cache/src/swr.rs:116-131 | gets are hits, stale hits, misses and negative hits; stale hits are refreshes skipped, succeeded, failed, dropped, panicked or under way; the epoch counts the invalidations |
| `SwrRuns.OutcomesAreCounted` | crates/cache/src/swr.rs:487-525 | over every run as many refreshes are counted as succeeded as wrote back, as failed as had a loader error, and as many calls as began |
| `SwrHistory.EntriesAreDated` | crates/cache/src/swr.rs:414-515 | in every run every entry carries the clock reading of the event that made it, a load's end or a refresh's insert |
| `SwrHistory.CallsAreDated` | crates/cache/src/swr.rs:352-362 | in every run every call under way judges by the clock as it stood at the event it began with |
| `SwrHistory.AnswersAreDated` | crates/cache/src/swr.rs:352-389 | and so does every call that has answered |
| `SwrRuns.RefreshesAreSingleFlight` | crates/cache/src/swr.rs:461-486 | an entry's flag is set exactly while one refresh of it is being started or runs, loader panics included |
| `SwrRace.InvalidationUndone` | crates/cache/src/swr.rs:494-515 | a run in which an invalidation begins and completes between those checks and the insert, and the slot ends up holding a load the invalidation covers, with no call left to remove it |
| `SwrRace.OlderReadLater` | crates/cache/src/swr.rs:494-515 | a run in which the entry is evicted and loaded anew between those checks and the insert, and a call begun after another answered answers with the older load |
| `SwrCache.Cache.constructor` | crates/cache/src/swr.rs:235-255 | a new cache is empty and has been through nothing |
| `SwrCache.Cache.Find` | crates/cache/src/swr.rs:363-388 | told by clock readings, without the model's own judgement: a hit exactly when a value is within both lifetimes of its fetch, a stale hit when within the hard one only, a negative hit when an absence is within its own, a miss otherwise; exactly that counter moves by one, and exactly a hit or negative hit answers, with the entry found |
| `SwrCache.Cache.ClaimRefresh` | crates/cache/src/swr.rs:461-469 | the flag is set afterwards; the call is counted as skipped exactly when it was set before, and otherwise has won |
| `SwrCache.Cache.CompareEpoch` | crates/cache/src/swr.rs:420-433 | the call answers with the entry it holds exactly when the epoch is the one it noted before the load, and otherwise goes on to remove it |
| `SwrCache.Cache.GuardEpoch` | crates/cache/src/swr.rs:494-497 | the refresh goes on exactly when the epoch is the one it was spawned at, and otherwise leaves with one drop counted |
| `SwrCache.Cache.GuardSlot` | crates/cache/src/swr.rs:505-512 | the refresh goes on exactly when its own entry is in the slot, and otherwise leaves with one drop counted |
| `SwrCache.Cache.RemoveCovered` | crates/cache/src/swr.rs:540-600 | what is left of the map is, for each of the four kinds, nothing, all but the one key, all keys that fail the predicate, all keys whose value fails it; each left as it was |
| `SwrCache.Cache.Step` | crates/cache/src/swr.rs:352-600 | whatever event the object goes through, its history stays a run of the transition system, so the theorems about runs hold of it |
| `SwrGet.Consult` | crates/cache/src/swr.rs:360-388 | whoever runs in between, the fast path answers exactly with an entry that is fresh or a usable negative one at the call's clock reading, goes on to a refresh decision exactly with a stale one and to a load otherwise; by itself it changes nothing else |
| `SwrGet.MaybeSpawnRefresh` | crates/cache/src/swr.rs:455-527 | a stale hit answers with the entry it found, whoever runs in between; by itself it sets the entry's flag and starts one refresh, at the current epoch, exactly if the flag was clear |
| `SwrGet.Prepare` | crates/cache/src/swr.rs:404-411 | the entry in the way is dropped first and the epoch noted before the load |
| `SwrGet.RunLoader` | crates/cache/src/swr.rs:414-418 | a leader ends holding its own entry, with what the source held since the load began, or answers with the loader's failure or panic, told by how the loader ends |
| `SwrGet.AwaitFlight` | crates/cache/src/swr.rs:414-418 | a waiter ends holding the entry its flight inserted, with the shared error if the flight failed, or free to try again if it panicked, and never otherwise |
| `SwrGet.Vouch` | crates/cache/src/swr.rs:420-433 | the entry held is handed out whether or not the epoch moved |
| `SwrGet.LoadSingleFlight` | crates/cache/src/swr.rs:399-441 | a hard miss ends in an answer that is not a cached one, or is still waiting for somebody else's load; by itself with no load of its key in flight it answers with what it loaded, now cached, or with its loader's failure or panic |
| `SwrGet.Get` | crates/cache/src/swr.rs:352-389 | for any interleaving with other tasks, a get leaves the object's history a run and, unless still waiting, has answered: with a value only if the source held it during the load behind it, and with a cached one only within its lifetime of the clock reading at the call's beginning; by itself it hands out exactly what is fresh, hands out what is stale and starts one refresh unless one is under way, and otherwise returns what it loads or the loader's error |
| `SwrGet.GuardedInsert` | crates/cache/src/swr.rs:489-516 | the two guards and the insert end with the refresh on its way out; by itself it replaces its entry, dated now, exactly if the epoch and the slot are as they were, and otherwise counts one drop |
| `SwrGet.RunRefresh` | crates/cache/src/swr.rs:480-526 | however its loader ends, panics included, the refresh is gone afterwards and its entry's flag is clear; by itself an error or a panic changes no slot and is counted, and a load replaces its entry exactly if epoch and slot are as they were |
| `SwrGet.Invalidate` | crates/cache/src/swr.rs:533-600 | when an invalidation returns successfully the epoch has advanced, it is on record and nothing it covers is left in the map; only a predicate can be refused; by itself it removes exactly what it names |
| `SwrGet.InvalidateKey` | crates/cache/src/swr.rs:533-542 | `invalidate(k)` cannot be refused; when it returns the key is not in the map, and by itself every other key is as it was |
| `SwrGet.InvalidateIf` | crates/cache/src/swr.rs:553-565 | `invalidate_if` is refused or leaves no key that satisfies the predicate; by itself exactly those keys go |
| `SwrGet.InvalidateIfValue` | crates/cache/src/swr.rs:578-590 | `invalidate_if_value` is refused or leaves no slot whose value satisfies the predicate; by itself exactly those slots go |
| `SwrGet.InvalidateAll` | crates/cache/src/swr.rs:592-600 | `invalidate_all` cannot be refused; when it returns the map is empty |
| `Credentials.LookupCredential` | crates/auth/src/credential_cache.rs:170-196 | a lookup never hands out a session whose expiry lies before now and only hands out what the store held; an expired hit is an error and by then its key has been invalidated; by itself a cached credential young enough is handed out, or the error given, exactly by its expiry |
| `Credentials.InvalidateAccount` | crates/auth/src/credential_cache.rs:119-126 | once it has returned successfully no credential of the account is left in the cache, and by itself nothing else has gone |
| `Credentials.InvalidatePrincipal` | crates/auth/src/credential_cache.rs:135-145 | once it has returned successfully no credential of the principal is left in the cache, and by itself nothing else has gone |
| `Credentials.RevokedStaysRevoked` | crates/auth/src/credential_cache.rs:110-145 | in every run in which no refresh inserted what was invalidated since its epoch comparison, after a fan-out invalidation with no load of the key pending, if the store never again answers the key with a revoked credential, no later lookup does |
| `Keys.ComponentRule` | crates/backup-store/src/key.rs:116-149 | a component is accepted exactly when it is a plain name by its characters and bytes, and each error is given exactly when its rule is the first one broken |
| `Keys.FirstOffender` | crates/backup-store/src/key.rs:69-71 | a refusal over a component names a rule that the first bad component breaks |
| `Keys.KeyRule` | crates/backup-store/src/key.rs:59-73 | a key is accepted exactly when it is non-empty, within 1024 bytes and every stretch between separators is a plain name; an empty or overlong one is refused as such, any other over its components |
| `Keys.PrefixRule` | crates/backup-store/src/key.rs:83-94 | a prefix is accepted exactly when it is empty, a good key, or a good key and one separator; a separator alone is its own error, and any other refusal is that of the key the prefix names |
| `Keys.ByteLenIsEncoded` | crates/backup-store/src/key.rs:41-52 | the length the limits are measured in is the number of bytes of the UTF-8 encoding |
| `Keys.JoinOfSplit` | crates/backup-store/src/key.rs:69-69 | joining the components of a string gives it back |
| `Keys.SplitOfJoin` | crates/backup-store/src/key.rs:69-69 | splitting joined components gives them back |
| `KeyMatching.MatchesIsComponentPrefix` | crates/backup-store/src/key.rs:105-114 | for every key and prefix the string test holds exactly when the prefix is empty or its components begin the key's |
| `KeyMatching.AlignedIsComponentPrefix` | crates/backup-store/src/key.rs:109-113 | the same for the string comparison alone, the empty prefix included |
| `KeyMatching.MatchingIsAPartialOrder` | crates/backup-store/src/key.rs:102-114 | matching is reflexive, transitive and, on non-empty strings, antisymmetric |
| `KeyMatching.MatchingByComponents` | crates/backup-store/src/key.rs:102-104 | on joined components, matching is the list prefix order |
| `KeyMatching.ValidKeysStayBelowTheRoot` | crates/backup-store/src/key.rs:6-20 | a valid key leads strictly below the root and no two valid keys lead to one place |
| `KeyMatching.NestingIsMatching` | crates/backup-store/src/key.rs:31-32 | one object's path lies inside another's exactly when its key matches the other's |
| `S3Keys.NormalizedIsStorePrefix` | crates/backup-store/src/s3.rs:1418-1436 | normalizing yields nothing or a valid key and a separator within 512 bytes, and changes nothing that is one already |
| `S3Keys.NormalizeRule` | crates/backup-store/src/s3.rs:1418-1436 | exactly what is accepted, and as what: leading separators and at most one at the end are dropped and the rest, if not empty, must be a good key whose 512 bytes include the separator put back; one that is no key and one that is too long are told apart |
| `S3Keys.FullKeyRule` | crates/backup-store/src/s3.rs:510-521 | under a prefix of n bytes a valid key is refused exactly when it has more than 1024 - n bytes, one of 512 never is, and the full key is the prefix followed by the key and again a valid key |
| `S3Keys.PrefixingKeepsMatching` | crates/backup-store/src/s3.rs:894-900 | the bucket prefix can be stripped again, merges no keys and changes no match |
| `S3Keys.ConfigRule` | crates/backup-store/src/s3.rs:1443-1489 | a configuration is accepted exactly when its bucket is named and no directory bucket, its part size is from 5 MiB to 5 GiB, something may be uploaded at a time and its prefix normalizes; what is handed on is that size and a store prefix, and each error is given exactly when its rule is the first one broken |
| `S3Keys.WhitespaceRule` | crates/backup-store/src/s3.rs:1447-1447 | the characters a bucket name may not consist of alone are Unicode's white space |
| `Ordering.NextPage` | crates/backup-store/src/s3.rs:882-924 | a page of an ordered listing is everything up to its last entry, and a token is given exactly when something is left |
| `Utf8.KeyLessByPosition` | crates/backup-store/src/fs.rs:1130-1130 | one key is before another exactly when it is a proper prefix or smaller at the first position where they differ |
| `Utf8.KeyLessIsByteOrder` | crates/backup-store/src/lib.rs:145-146 | the order of keys is the byte order of their UTF-8 encodings |
| `Chunks.Chunker.constructor` | crates/backup-store/src/s3.rs:2238-2243 | a new chunker owes the whole body |
| `Chunks.Chunker.Next` | crates/backup-store/src/s3.rs:2244-2263 | each call yields the first of what is owed and leaves the rest owed, however the body was cut into pieces |
| `Chunks.WholeBody` | crates/backup-store/src/s3.rs:2236-2265 | the chunks join up to the body, all but the last have exactly the size, the last is not empty, and there are as many as it takes |
| `Chunks.BrokenBody` | crates/backup-store/src/s3.rs:2257-2260 | an error appears after exactly the whole chunks before it |
| `S3Bucket.ConditionalRule` | crates/backup-store/src/s3.rs:2127-2139 | a refusal means an object is there exactly by status 412 or its code, a collision exactly by the conflict's code otherwise, and nothing when there was no answer |
| `S3Bucket.Bucket.PutObject` | crates/backup-store/src/s3.rs:569-597 | the bucket's side of an object request: stored whole or not at all, 412 exactly when it is conditional and something is there; a request that failed changed nothing |
| `S3Bucket.Bucket.CreateUpload` | crates/backup-store/src/s3.rs:699-717 | the bucket's side of a create: a new upload, or none |
| `S3Bucket.Bucket.UploadPart` | crates/backup-store/src/s3.rs:760-773 | the bucket's side of a part: it changes that upload only |
| `S3Bucket.Bucket.CompleteUpload` | crates/backup-store/src/s3.rs:621-654 | the bucket's side of a complete: the listed parts become the object and the upload goes, or neither; served, it is refused with 412 exactly when it is conditional and something is there |
| `S3Bucket.Bucket.DeleteObjects` | crates/backup-store/src/s3.rs:967-997 | the bucket's side of a delete: only named keys go, and all of them unless some are reported |
| `S3Bucket.Bucket.AbortUpload` | crates/backup-store/src/s3.rs:2157-2178 | the bucket's side of an abort: the upload is gone unless the request failed |
| `S3Put.BackoffTotals` | crates/backup-store/src/s3.rs:2140-2150 | the waits double from 100 ms and stop growing at 1.6 s, and all eight take 7.9 s |
| `S3Put.PartsWithinLimits` | crates/backup-store/src/s3.rs:1452-1464 | under an accepted configuration the parts join up to the body, there are as many as it takes, and all but the last have a size S3 accepts |
| `S3Put.Store.PutWhole` | crates/backup-store/src/s3.rs:564-599 | one object request, re-sent at most eight times and only when conditional; success stores exactly the body, absence was seen; after any number of conflicts up to eight a request that is served decides, absent exactly if conditional and the key was taken, nine conflicts are an error after nine requests, and any other failure of the first is one at once |
| `S3Put.Store.SendPart` | crates/backup-store/src/s3.rs:758-780 | chunk n becomes part n + 1 of its upload |
| `S3Put.Store.NextChunk` | crates/backup-store/src/s3.rs:738-738 | the first two chunks are put back in front of the rest |
| `S3Put.Store.UploadParts` | crates/backup-store/src/s3.rs:730-788 | on success the parts numbered from one are the chunks in order and the size is theirs; an error in the body or too many parts fails |
| `S3Put.Store.CompleteParts` | crates/backup-store/src/s3.rs:619-655 | the same of the complete request: the parts become the object, and what is reported after how many requests is forced by the conflicts and the request that is served or fails |
| `S3Put.Store.UploadAndComplete` | crates/backup-store/src/s3.rs:615-657 | between create and abort: the whole body is stored and the upload gone, or neither |
| `S3Put.Store.PutInParts` | crates/backup-store/src/s3.rs:613-679 | whatever was not completed is aborted, and an upload stays open only if that request failed; with every request served it reports the size, or none if conditional and the key was taken, and too many parts or a body that fails are errors that say so |
| `S3Put.Store.PutBody` | crates/backup-store/src/s3.rs:556-679 | a body goes in one object request exactly when it fits the part size; its result is forced when the first request is served or nine meet a conflict, and whenever every request is served |
| `S3Put.Store.PutInner` | crates/backup-store/src/s3.rs:548-680 | whatever the network does, the key holds its previous object or the whole body, no other key changes, a conditional put replaces nothing, an upload stays open only if its abort failed, and success reports the body's size and used exactly the requests its length calls for; a small body's result is forced by its first request served or its nine conflicts, and with every request served it is none exactly if conditional and the key was taken, else the size |
| `UploadResults.PutReturns` | crates/backup-store/src/s3.rs:613-679 | over every run, a put in parts that was not dropped reports its object exactly if a complete was answered with success, none exactly if one was answered that there is one already, and an error exactly if the create, a part, the body or a complete failed or nine completes met a conflict |
| `UploadOwnership.EveryUploadIsOwned` | crates/backup-store/src/s3.rs:694-726 | in every state of every run, with puts dropped at any await, every open upload is held by a task, a channel, a put or a spawned abort, or its abort failed |
| `UploadOwnership.DroppedRequestsGoOn` | crates/backup-store/src/s3.rs:2157-2234 | a complete or abort request whose put was dropped may still be carried out with the same effect, and the guard's abort comes on top |
| `UploadOwnership.NothingLeftOpen` | crates/backup-store/src/s3.rs:659-679 | once everything has run, an upload is open only if its abort failed, and a put that reported its object stored it |
| `UploadOwnership.RankDrops` | crates/backup-store/src/s3.rs:2157-2234 | every step of a put, its create task or its aborts brings it nearer its end |
| `UploadOwnership.SomethingToDo` | crates/backup-store/src/s3.rs:694-726 | until a put is at rest there is a step to take |
| `UploadOwnership.RunsEnd` | crates/backup-store/src/s3.rs:2210-2234 | without new puts only a bounded number of events can happen before everything is at rest |
| `CreateSpec.FirstBodyStays` | crates/backup-store/src/s3.rs:2112-2120 | under insert-if-absent the first body stored is never replaced |
| `FsCreate.LinkRefinesCreate` | crates/backup-store/src/fs.rs:503-540 | in every interleaving of conditional puts of a key, `link` only ever takes it from empty to one body |
| `FsCreate.LinkAgreement` | crates/backup-store/src/fs.rs:494-540 | at most one call reports an object and it is that call's body, and a call that reports none saw one |
| `S3Create.IfNoneMatchRefinesCreate` | crates/backup-store/src/s3.rs:564-599 | in every interleaving of conditional requests, lost answers and re-sent copies included, the key only ever goes from empty to one body |
| `S3Create.IfNoneMatchAgreement` | crates/backup-store/src/s3.rs:615-655 | at most one caller reports an object and it is that caller's body, a caller that reports none saw one, and no caller sends more than nine requests or sleeps longer than 7.9 s |
| `CreateResults.CallerReports` | crates/backup-store/src/s3.rs:564-655 | over every run, a caller that was not dropped reports its object exactly if an answer reached it from a copy that found the key empty, none exactly if one did from a copy that found an object, and an error exactly if its request failed or timed out or nine met a conflict |
| `S3Listing.Lister.Page` | crates/backup-store/src/s3.rs:876-925 | a page yields exactly the keys under the prefix up to its token |
| `S3Listing.Lister.ListAll` | crates/backup-store/src/s3.rs:1295-1322 | for any page boundaries the listing is the valid keys under the prefix, in order, with their sizes, and no others; with every request served and a valid prefix it succeeds, and a bad prefix is refused without a request |
| `S3Listing.Lister.DeleteBatches` | crates/backup-store/src/s3.rs:956-999 | the keys are deleted in requests of at most a thousand, all of them on success |
| `S3Listing.Lister.DeletePage` | crates/backup-store/src/s3.rs:937-1003 | deleting what a page showed takes nothing from the pages to come |
| `S3Listing.Lister.DeleteAll` | crates/backup-store/src/s3.rs:931-1004 | the object loop removes exactly what is under the prefix and counts it, on success |
| `S3Listing.DeniedRule` | crates/backup-store/src/s3.rs:2089-2104 | a refusal is a denial exactly by its code, or by status 403 without the code of an unusable token |
| `S3Listing.MissingRule` | crates/backup-store/src/s3.rs:2306-2340 | an upload is taken to be gone exactly by its own code, or by status 404 or the code of a missing object, unless the bucket is what is missing or the credentials are unusable |
| `S3Listing.Lister.SweepOne` | crates/backup-store/src/s3.rs:1063-1102 | an upload outside the prefix is skipped without a request; one under it meets one abort request, a denied one or an upload already gone is no error, and any other refusal is handed on |
| `S3Listing.Lister.Sweep` | crates/backup-store/src/s3.rs:1030-1114 | uploads outside the prefix stay; unless listing them was denied, every one under it is gone except those whose abort failed |
| `S3Listing.Lister.DeletePrefix` | crates/backup-store/src/s3.rs:927-1012 | for any bucket and page boundaries only objects and uploads under the prefix go; on success none of those objects is left and the count is their number; with every request served and no object denied it succeeds |
| `S3Listing.SiblingsAreNotUnder` | crates/backup-store/src/s3.rs:1014-1018 | a key that merely continues the prefix's last component is found by the string prefix and not under it |
| `FsPut.StepKeepsPut` | crates/backup-store/src/fs.rs:387-421 | every step keeps the temporary holding exactly the chunks written so far without error, and the put minding it |
| `FsPut.EveryObjectIsWhole` | crates/backup-store/src/fs.rs:458-492 | in every run every key holds its initial object or the whole body of one put of that key |
| `FsPut.NoPartialObject` | crates/backup-store/src/fs.rs:468-491 | no event leaves a key between two objects, and only the rename or link of a put whose writes all landed and were flushed changes it |
| `FsPut.NoTemporaryLeft` | crates/backup-store/src/fs.rs:940-974 | a finished put leaves a temporary only where removing it failed, dropped opens and renames included |
| `FsPut.DroppedWorkGoesOn` | crates/backup-store/src/fs.rs:900-974 | a rename or link whose put was dropped has its whole effect unless the put's guard removed the temporary, and then none; a dropped open makes its temporary and the guard goes on to remove it |
| `FsPut.SuccessWasStored` | crates/backup-store/src/fs.rs:472-489 | a put that reported success did put its whole body under its key |
| `FsResults.PutReports` | crates/backup-store/src/fs.rs:458-540 | over every run, a put that was not dropped reports its object exactly if every step worked, directory sync included, and its rename or link found its temporary and, if conditional, no object; none exactly if it is conditional and found one, at the start or at the link; an error otherwise, which after steps that all worked means its temporary was gone |
| `FsPut.SomethingToDo` | crates/backup-store/src/fs.rs:900-930 | until a put has finished there is a step to take, whether its caller waits or is gone |
| `FsPut.RunsEnd` | crates/backup-store/src/fs.rs:387-421 | without new puts only a bounded number of put steps can follow before every put has finished |
| `FsTree.WalkComponents` | crates/backup-store/src/fs.rs:1037-1076 | the walk is refused exactly when a directory on the way is not private or a link is in the way, with the error of the first such component, and otherwise finds what is there unless that is a link |
| `FsTree.TempNames` | crates/backup-store/src/fs.rs:1006-1008 | a name is a temporary's exactly when it is `.put-`, anything, and `.tmp` |
| `FsList.WalkFiles` | crates/backup-store/src/fs.rs:1178-1242 | refused exactly when some directory below is not private, with that error, otherwise every object below once, in any reading order |
| `FsList.WalkChild` | crates/backup-store/src/fs.rs:1202-1239 | the same for one entry of a directory |
| `FsList.SortByKey` | crates/backup-store/src/fs.rs:1130-1130 | the listing is put in key order |
| `FsList.CollectObjects` | crates/backup-store/src/fs.rs:1101-1132 | `list` is refused exactly for a bad prefix, a barred path or a directory that is not private, with the error of the first of these; otherwise it is the valid, non-temporary keys that match the prefix, sorted, and no others |
| `StoresAgree.StoresListAlike` | crates/backup-store/src/lib.rs:145-155 | over the keys both stores can hold, the filesystem walk and the S3 filter give the same listing |
| `FsDelete.CheckTree` | crates/backup-store/src/fs.rs:1338-1364 | the check before a deletion passes exactly when every directory below is private |
| `FsDelete.Walk.CheckCancel` | crates/backup-store/src/fs.rs:1268-1275 | a walk that saw the flag stops |
| `FsDelete.Walk.Remove` | crates/backup-store/src/fs.rs:1366-1375 | one removal after the flag was set is the last |
| `FsDelete.Walk.DeleteChildren` | crates/backup-store/src/fs.rs:1411-1415 | everything below a directory goes, child by child |
| `FsDelete.Walk.DeleteEntry` | crates/backup-store/src/fs.rs:1391-1432 | success means the whole subtree is gone and its non-directories counted; failure is the flag or a directory that is not private; nothing outside is touched |
| `FsDelete.Walk.DeleteObjects` | crates/backup-store/src/fs.rs:1298-1333 | a refusal leaves the tree unchanged and names the first rule broken; otherwise everything under the prefix and nothing else is gone, the root stays and the count is exact; a dropped call removes at most one entry more |
| `FsConcurrentDelete.StepKeepsWalker` | crates/backup-store/src/fs.rs:1391-1432 | a walk never fails, whatever other walks remove under it |
| `FsPartition.WalksPartitionTheWork` | crates/backup-store/src/lib.rs:157-182 | in every interleaving of walks, dropped ones included, no walk fails, nothing goes but what some walk was asked to delete, the counts add up to the non-directories gone, each counted once, and nothing a finished walk was asked to delete is left |
| `FsPartition.FinishedTogether` | crates/backup-store/src/lib.rs:157-182 | when all walks have finished, what is left is the tree without exactly what they were asked to delete, and the counts sum to its non-directories |
| `FsPartition.OnePrefix` | crates/backup-store/src/lib.rs:157-182 | several deletions of one prefix at once leave what one leaves, and their counts add up to the count of one |
| `FsPartition.StepsAreBounded` | crates/backup-store/src/fs.rs:1391-1432 | without new walks only a bounded number of events can follow |
| `FsPartition.NeverStuck` | crates/backup-store/src/fs.rs:1391-1432 | a walk has a step to take, whatever the others did, exactly until it has finished or seen its flag |
| `FsPartition.DroppedCallStops` | crates/backup-store/src/lib.rs:184-189 | from the moment a call is dropped its walk removes at most one entry more, and that one only if its removal was already decided on |
| `FsPartition.GoneForGood` | crates/backup-store/src/lib.rs:184-189 | what has been removed stays removed |
| `Calendar.YearOfEraExact` | crates/bin/build.rs:61-65 | the nested quotients give the year a day of the era falls in |
| `Calendar.DayOfYearInRange` | crates/bin/build.rs:61-65 | no unsigned subtraction underflows |
| `Calendar.NextDayIsNextDate` | crates/bin/build.rs:58-69 | every day count gives a valid date and one more day gives the next date |
| `Calendar.CivilFromDaysIsTheCalendar` | crates/bin/build.rs:58-69 | for every day count the closed form is the date reached by counting days on the calendar |
| `Calendar.DayNumberRoundTrip` | crates/bin/build.rs:58-69 | counting the days up to the computed date gives the day count back |
| `Calendar.EveryDateIsReached` | crates/bin/build.rs:58-69 | every date from 1970 on is the date of its day count |
| `Calendar.ClockAdvances` | crates/bin/build.rs:45-51 | one more second is the next second on the clock, days carried over |
| `Calendar.SecondsRoundTrip` | crates/bin/build.rs:45-69 | the computed instant determines the second it came from |

## Left out

- The map under the cache (moka), the async runtime and the AWS SDK: their operations are taken at their contracts. A lookup, insert or removal of the map is atomic, `try_get_with` runs one loader per key and inserts before it answers, and the callers that waited for a panicked loader try again.
- Callers dropped in the middle of a cache `get`; the cache's `u64` counters wrapping around; the cost of an entry and the map's eviction policy beyond "any entry may go at any time".
- S3Bucket.Bucket.CreateUpload: a create request whose answer is lost leaves no upload in the model, because the source excludes that case too.
- S3Put.Store.UploadParts: uploads the parts one after the other, where the source keeps several in flight; the parts end up under the same numbers.
- S3Listing.Lister.ListAll: returns an error without the entries of the pages before it, which the source's stream would have yielded.
- S3Listing.Lister.SweepOne: an abort answered 404 without the `NoSuchUpload` code counts as an upload already gone, as in the source; such an upload may still be open, and the contract says so.
- UploadOwnership.EveryUploadIsOwned: assumes the runtime keeps running, as the source documents.
- Uids and modes of directories and their ancestors: one boolean per directory says whether it passes the owner-only rule. What is behind a symbolic link is not part of the tree.
- FsPartition.WalksPartitionTheWork: takes the resolution of a prefix as one step, and leaves out the check of the whole tree before it, since every directory is private there.
- fsync and power loss; `get`, `head` and `validate` of the two stores; the creation of parent directories by a put.
- FsPut.NoTemporaryLeft: a temporary whose removal failed stays, as in the source, until a `delete_prefix` covers it.
- Endpoint, proxy, region and credential checks of the S3 store, the command line, the migration and backup commands, expression parsing, policy evaluation, request signing and the storage backends.
- Time zones and leap seconds: the build date is UTC without them, as in the source.
