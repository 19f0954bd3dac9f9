/**
Refresh single-flight over every interleaving: an entry's `refresh_in_flight` flag is set exactly
while one refresh of that entry is under way, however the loader ends.
*/
module SwrFlags {
  import opened Wrappers
  import opened SwrModel
  import opened SwrInvariants

  ghost predicate Won<K, V>(s: State<K, V>, g: nat) {
    g in s.calls && s.calls[g].pc.WonCas?
  }

  ghost predicate TaskFor<K, V>(s: State<K, V>, r: nat, e: nat) {
    r in s.refreshes && s.refreshes[r].from == e
  }

  ghost predicate WonFor<K, V>(s: State<K, V>, g: nat, e: nat) {
    Won(s, g) && s.calls[g].pc.entry == e
  }

  /** `e` has a refresh: a task runs for it, or the call that won its flag is about to spawn one. */
  ghost predicate Refreshed<K, V>(s: State<K, V>, e: nat) {
    (exists r :: TaskFor(s, r, e)) || (exists g :: WonFor(s, g, e))
  }

  /** At most one task or winning call per entry. */
  ghost predicate OneRefresh<K, V>(s: State<K, V>) {
    && (forall r, q, e :: TaskFor(s, r, e) && TaskFor(s, q, e) ==> r == q)
    && (forall g, h, e :: WonFor(s, g, e) && WonFor(s, h, e) ==> g == h)
    && (forall g, r, e :: WonFor(s, g, e) ==> !TaskFor(s, r, e))
  }

  /** The flag of an entry is set exactly while one refresh of that entry exists. */
  ghost predicate Flags<K, V>(s: State<K, V>) {
    OneRefresh(s) && forall e :: e in s.flags <==> Refreshed(s, e)
  }

  lemma FlagsSame<K, V>(s: State<K, V>, t: State<K, V>)
    requires Flags(s) && t.flags == s.flags
    requires forall r, e :: TaskFor(t, r, e) <==> TaskFor(s, r, e)
    requires forall g, e :: WonFor(t, g, e) <==> WonFor(s, g, e)
    ensures Flags(t)
  {
    forall e ensures Refreshed(t, e) <==> Refreshed(s, e) {}
  }

  lemma FlagsCas<K, V>(s: State<K, V>, t: State<K, V>, g: nat)
    requires Flags(s) && g in s.calls && s.calls[g].pc.StaleHit? && s.calls[g].pc.entry !in s.flags
    requires t.calls == s.calls[g := s.calls[g].(pc := WonCas(s.calls[g].pc.entry))]
    requires t.refreshes == s.refreshes && t.flags == s.flags + {s.calls[g].pc.entry}
    ensures Flags(t)
  {
    var e := s.calls[g].pc.entry;
    assert !Refreshed(s, e) && WonFor(t, g, e);
    forall h, x ensures WonFor(t, h, x) <==> WonFor(s, h, x) || (h == g && x == e) {}
    forall r, x ensures TaskFor(t, r, x) <==> TaskFor(s, r, x) {}
    forall x ensures Refreshed(t, x) <==> Refreshed(s, x) || x == e {}
  }

  lemma FlagsSpawn<K, V>(s: State<K, V>, t: State<K, V>, g: nat)
    requires Flags(s) && g in s.calls && s.calls[g].pc.WonCas? && s.stamp !in s.refreshes
    requires t.calls == s.calls - {g} && t.flags == s.flags
    requires t.refreshes == s.refreshes[s.stamp := Refresh(s.calls[g].key, s.calls[g].pc.entry, s.epoch, Spawned)]
    ensures Flags(t)
  {
    var e := s.calls[g].pc.entry;
    assert WonFor(s, g, e) && TaskFor(t, s.stamp, e);
    forall h, x ensures WonFor(t, h, x) <==> WonFor(s, h, x) && h != g {}
    forall r, x ensures TaskFor(t, r, x) <==> TaskFor(s, r, x) || (r == s.stamp && x == e) {}
    forall x ensures Refreshed(t, x) <==> Refreshed(s, x) {}
  }

  lemma FlagsExit<K, V>(s: State<K, V>, t: State<K, V>, r: nat)
    requires Flags(s) && r in s.refreshes
    requires t.calls == s.calls && t.refreshes == s.refreshes - {r} && t.flags == s.flags - {s.refreshes[r].from}
    ensures Flags(t)
  {
    var e := s.refreshes[r].from;
    assert TaskFor(s, r, e);
    forall h, x ensures WonFor(t, h, x) <==> WonFor(s, h, x) {}
    forall q, x ensures TaskFor(t, q, x) <==> TaskFor(s, q, x) && q != r {}
    forall x ensures Refreshed(t, x) <==> Refreshed(s, x) && x != e {}
  }

  lemma FlagsCallStep<K, V>(w: World<K, V>, s: State<K, V>, g: nat, step: CallStep)
    requires Shape(w, s) && Flags(s) && CallCan(s, g, step)
    ensures Flags(Next(CallDo(w, s, g, step)))
  {
    hide Shape, Flags;
    var t := Next(CallDo(w, s, g, step));
    if step.Spawn? {
      Unused(w, s);
      FlagsSpawn(s, t, g);
    } else {
      hide CallDo;
      CallFrame(w, s, g, step);
      var move := StepMove(w, s, g, step);
      if move.Goto? && move.pc.WonCas? {
        FlagsCas(s, t, g);
      } else {
        FlagsSame(s, t);
      }
    }
  }

  lemma FlagsRefreshStep<K, V>(w: World<K, V>, s: State<K, V>, r: nat, step: RefreshStep)
    requires Flags(s) && RefreshCan(s, r, step)
    ensures Flags(Next(RefreshDo(w, s, r, step)))
  {
    hide Flags;
    var t := Next(RefreshDo(w, s, r, step));
    if step.Exit? {
      FlagsExit(s, t, r);
    } else {
      RefreshFrame(w, s, r, step);
      hide RefreshDo, RefreshCan;
      FlagsSame(s, t);
    }
  }

  lemma FlagsKept<K, V>(w: World<K, V>, s: State<K, V>, ev: Event<K, V>)
    requires Shape(w, s) && Flags(s) && Enabled(s, ev)
    ensures Flags(Apply(w, s, ev))
  {
    hide Shape, Flags, CallDo, RefreshDo, CallCan, RefreshCan;
    match ev
    case Advance(g, step) => FlagsCallStep(w, s, g, step);
    case Refreshing(r, step) => FlagsRefreshStep(w, s, r, step);
    case _ =>
      Unused(w, s);
      FlagsSame(s, Apply(w, s, ev));
  }
}
