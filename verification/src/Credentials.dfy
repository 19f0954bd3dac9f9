/**
The cached credential store: the expiry check on every hit and the fan-out invalidations, on top
of the cache.
*/
module Credentials {
  import opened Wrappers
  import opened SwrModel
  import opened SwrInvariants
  import opened SwrMonotone
  import opened SwrFreshReads
  import opened SwrRuns
  import opened SwrEpochGuard
  import opened SwrCache
  import opened SwrGet

  datatype Credential = Credential(
    secretKey: string, accountId: string, principalName: string, sessionName: Option<string>,
    isSession: bool, sessionToken: Option<string>, isActive: bool, expiresAt: Option<int>)

  type Store = Cache<string, Credential>
  type Others = seq<seq<Event<string, Credential>>>

  datatype Lookup =
    | Found(credential: Option<Credential>)
    | ExpiredToken
    | StoreFailed
    | StorePanicked
    | StillPending

  /** A session past its issued lifetime. */
  predicate IsExpired(cred: Credential, now: int) {
    cred.isSession && cred.expiresAt.Some? && cred.expiresAt.value < now
  }

  predicate HeldExpired(held: Option<Credential>, now: int) {
    held.Some? && IsExpired(held.value, now)
  }

  function OfAccount(account: string): Scope<string, Credential> {
    ValuesWhere((v: Option<Credential>) => v.Some? && v.value.accountId == account)
  }

  function OfPrincipal(account: string, principal: string): Scope<string, Credential> {
    ValuesWhere((v: Option<Credential>) =>
                  v.Some? && v.value.accountId == account && v.value.principalName == principal)
  }

  /** What a lookup that runs by itself answers. */
  ghost predicate LookedUpAlone(
      w: World<string, Credential>, s: State<string, Credential>, key: string, plan: Plan, now: int, r: Lookup)
  {
    && (IsServable(w, s, key) ==>
          var held := s.entries[s.slots[key]].value;
          && (r.ExpiredToken? <==> HeldExpired(held, now))
          && (r == Found(held) <==> !HeldExpired(held, now)))
    && (!IsServable(w, s, key) && key !in s.active ==>
          && (r.StoreFailed? <==> plan.Errs?)
          && (r.StorePanicked? <==> plan.Panics?)
          && !r.StillPending?)
  }

  /** The cache holds something for the key that is young enough to be handed out, fresh or stale. */
  ghost predicate IsServable(w: World<string, Credential>, s: State<string, Credential>, key: string) {
    && key in s.slots && s.slots[key] in s.entries
    && (Handed(w.config, s.clock, s.entries[s.slots[key]]) || Aged(w.config, s.clock, s.entries[s.slots[key]]))
  }

  lemma AloneReplies(
      w: World<string, Credential>, s: State<string, Credential>, t: State<string, Credential>, key: string, plan: Plan,
      reply: Reply<Credential>)
    requires GetAlone(w, s, t, key, plan, reply)
    ensures IsServable(w, s, key) ==> reply == Value(s.entries[s.slots[key]].value)
    ensures !IsServable(w, s, key) && key !in s.active ==>
              && (reply.LoaderFailed? <==> plan.Errs?)
              && (reply.LoaderPanicked? <==> plan.Panics?)
              && !reply.Pending?
  {
    hide Handed, Aged, NewRefresh, CachedAlone;
  }

  /**
  A lookup never hands out an expired session, and hands out only what the backing store held. An
  expired one found in the cache is an error, and by the time the caller sees it, the key has been
  invalidated. By itself, it answers from the cache whenever that holds something young enough.
  */
  method LookupCredential(store: Store, key: string, polls: Others, plan: Plan, now: int, morePolls: Others)
    returns (r: Lookup)
    requires store.Valid()
    modifies store
    ensures store.Valid()
    ensures r.Found? && r.credential.Some? ==>
              var cred := r.credential.value; cred.isSession && cred.expiresAt.Some? ==> now <= cred.expiresAt.value
    ensures r.Found? ==> exists readAt: nat :: readAt < store.stamp && r.credential == store.world.source(readAt, key)
    ensures r.ExpiredToken? ==>
              && key !in store.slots
              && (exists inv :: inv in store.done && inv.scope == OneKey(key) && old(store.stamp) <= inv.at)
              && (exists readAt: nat ::
                    && readAt < store.stamp
                    && var held := store.world.source(readAt, key);
                       && held.Some? && held.value.isSession
                       && held.value.expiresAt.Some? && held.value.expiresAt.value < now)
    ensures polls == [] ==> LookedUpAlone(store.world, old(store.Now()), key, plan, now, r)
  {
    hide IsRun, Answered;
    StampIs(store);
    ghost var s := store.Now();
    var reply := Get(store, key, polls, plan);
    if polls == [] { AloneReplies(store.world, s, store.Now(), key, plan, reply); }
    hide GetAlone;
    match reply {
      case LoaderFailed => r := StoreFailed;
      case LoaderPanicked => r := StorePanicked;
      case Pending => r := StillPending;
      case Value(v) =>
        if v.Some? && IsExpired(v.value, now) {
          StampIs(store);
          ghost var at := store.stamp;
          var _ := Invalidate(store, OneKey(key), morePolls, false);
          StampIs(store);
          assert Invalidation(OneKey(key), at) in store.done;
          r := ExpiredToken;
        } else {
          r := Found(v);
        }
    }
  }

  /** Once it has returned successfully, no credential of the account is left; by itself, nothing else goes. */
  method InvalidateAccount(store: Store, account: string, polls: Others, refused: bool) returns (ok: bool)
    requires store.Valid()
    modifies store
    ensures store.Valid() && ok == !refused
    ensures ok ==>
              && Invalidation(OfAccount(account), old(store.stamp)) in store.done
              && forall k :: k in store.slots ==>
                   && store.slots[k] in store.entries
                   && var v := store.entries[store.slots[k]].value; v.Some? ==> v.value.accountId != account
    ensures polls == [] ==>
              forall k :: k in old(store.slots) && k !in store.slots ==>
                && ok && old(store.slots)[k] in store.entries
                && var v := store.entries[old(store.slots)[k]].value; v.Some? && v.value.accountId == account
  {
    ok := Invalidate(store, OfAccount(account), polls, refused);
  }

  method InvalidatePrincipal(store: Store, account: string, principal: string, polls: Others, refused: bool)
    returns (ok: bool)
    requires store.Valid()
    modifies store
    ensures store.Valid() && ok == !refused
    ensures ok ==>
              && Invalidation(OfPrincipal(account, principal), old(store.stamp)) in store.done
              && forall k :: k in store.slots ==>
                   && store.slots[k] in store.entries
                   && var v := store.entries[store.slots[k]].value;
                      v.Some? ==> v.value.accountId != account || v.value.principalName != principal
    ensures polls == [] ==>
              forall k :: k in old(store.slots) && k !in store.slots ==>
                && ok && old(store.slots)[k] in store.entries
                && var v := store.entries[old(store.slots)[k]].value;
                   v.Some? && v.value.accountId == account && v.value.principalName == principal
  {
    ok := Invalidate(store, OfPrincipal(account, principal), polls, refused);
  }

  lemma StampIs(store: Store)
    requires store.Valid()
    ensures store.stamp == |store.events| + 1
  {
    StampsCount(store.world, store.states, store.events, |store.events|);
  }

  // ---- Revocation. ----

  /**
  Deleting an account, or a user or role in it, locks it out: once the fan-out invalidation has
  returned and the load of `k` it may have met is over, if the backing store never again answers
  `k` with a credential of the deleted principal, no lookup begun from then on does either.
  */
  lemma RevokedStaysRevoked(
      w: World<string, Credential>, states: seq<State<string, Credential>>, events: seq<Event<string, Credential>>,
      m: nat, n: nat, k: string, i: nat, j: nat, revoked: Scope<string, Credential>)
    requires IsRun(w, states, events) && m <= n < |states| && NoneInvalidated(states, events, n)
    requires i < |states[m].done| && !LoadPending(states[m], k) && states[m].done[i].scope == revoked
    requires forall t: nat :: states[m].done[i].at < t ==> !revoked.Covers(k, w.source(t, k))
    requires j < |states[n].answers|
    requires var a := states[n].answers[j]; a.key == k && states[m].stamp <= a.begun && Given(a.outcome).Some?
    ensures Given(states[n].answers[j].outcome).value in states[n].entries
    ensures !revoked.Covers(k, states[n].entries[Given(states[n].answers[j].outcome).value].value)
  {
    ReadsAfterInvalidation(w, states, events, m, n, k, i, j);
    AnswersAreTruthful(w, states, events, n, j);
  }
}
