/**
`put_if_absent` as one operation: insert if absent, atomically. The filesystem store's `link` and
the S3 store's `If-None-Match` are shown to be that operation, in every interleaving of calls on a
key that nobody deletes and no plain put touches.
*/
module CreateSpec {
  import opened Wrappers
  import opened Chunks

  /** Each step leaves the slot alone or fills it, and it can be filled only once. */
  ghost predicate OnlyCreates(slots: seq<Option<Bytes>>) {
    forall i :: 0 <= i < |slots| - 1 ==> Creates(slots[i], slots[i + 1])
  }

  predicate Creates(before: Option<Bytes>, after: Option<Bytes>) {
    before == after || before.None?
  }

  /** The first body stored is never replaced. */
  lemma {:induction false} FirstBodyStays(slots: seq<Option<Bytes>>, m: nat, n: nat)
    requires OnlyCreates(slots) && m <= n < |slots| && slots[m].Some?
    ensures slots[n] == slots[m]
  {
    if m == n {
    } else {
      FirstBodyStays(slots, m, n - 1);
      assert Creates(slots[n - 1], slots[n - 1 + 1]);
    }
  }
}

module FsCreate {
  import opened Wrappers
  import opened Chunks
  import opened CreateSpec
  import opened FsPut

  function Slot(s: State, k: string): Option<Bytes> {
    if k in s.objects then Some(s.objects[k].body) else None
  }

  ghost function Slots(states: seq<State>, k: string): seq<Option<Bytes>> {
    seq(|states|, i requires 0 <= i < |states| => Slot(states[i], k))
  }

  /** Nobody deletes `k`, and every put of it is conditional. */
  ghost predicate CreatedOnly(events: seq<Event>, k: string) {
    forall i :: 0 <= i < |events| ==>
      events[i] != DeleteObject(k) && (events[i].Start? && events[i].key == k ==> events[i].ifAbsent)
  }

  /** A conditional put of `k` that placed its body is the author of what is there. */
  ghost predicate Winner(s: State, k: string) {
    forall p :: 0 <= p < |s.puts| && s.puts[p].key == k ==>
      && s.puts[p].ifAbsent
      && (s.puts[p].placed ==> k in s.objects && s.objects[k].author == Some(p))
      && (SaidAbsent(s.puts[p]) ==> k in s.objects)
  }

  predicate SaidAbsent(put: Put) {
    put.pc == Moved(Exists) || ((put.pc.Removing? || put.pc.Finished?) && put.pc.result.Absent?)
  }

  lemma WinnerKept(s: State, ev: Event, k: string)
    requires Winner(s, k) && Enabled(s, ev) && ev != DeleteObject(k) && (ev.Start? && ev.key == k ==> ev.ifAbsent)
    ensures Winner(Apply(s, ev), k) && Creates(Slot(s, k), Slot(Apply(s, ev), k))
  {
    if ev.On? {
      StepIsOwn(s, ev.put, ev.step);
      AnswersAreSound(s, ev.put, ev.step);
      hide Do, Can;
    }
  }

  lemma AnswersAreSound(s: State, p: nat, step: Step)
    requires Can(s, p, step)
    ensures var t := Do(s, p, step);
            && |t.puts| == |s.puts|
            && (SaidAbsent(t.puts[p]) ==> SaidAbsent(s.puts[p]) || s.puts[p].key in s.objects)
            && (t.puts[p].placed ==>
                  s.puts[p].placed ||
                  (s.puts[p].key in t.objects && t.objects[s.puts[p].key].author == Some(p)))
  {
  }

  lemma {:induction false} EveryWinner(
      initial: map<string, Object>, states: seq<State>, events: seq<Event>, n: nat, k: string)
    requires IsRun(initial, states, events) && n < |states| && CreatedOnly(events, k)
    ensures Winner(states[n], k)
    ensures n > 0 ==> Creates(Slot(states[n - 1], k), Slot(states[n], k))
  {
    if n == 0 {
    } else {
      EveryWinner(initial, states, events, n - 1, k);
      assert Enabled(states[n - 1], events[n - 1]);
      hide Winner, Apply, Enabled;
      WinnerKept(states[n - 1], events[n - 1], k);
    }
  }

  /** The slot of `k` only ever goes from empty to one body, and stays there. */
  lemma LinkRefinesCreate(initial: map<string, Object>, states: seq<State>, events: seq<Event>, k: string)
    requires IsRun(initial, states, events) && CreatedOnly(events, k)
    ensures OnlyCreates(Slots(states, k))
  {
    forall i | 0 <= i < |states| - 1 ensures Creates(Slots(states, k)[i], Slots(states, k)[i + 1]) {
      EveryWinner(initial, states, events, i + 1, k);
    }
  }

  /**
  Agreement: at most one call reports an object and it is that call's body, and a call that
  reports none saw an object there.
  */
  lemma LinkAgreement(
      initial: map<string, Object>, states: seq<State>, events: seq<Event>, n: nat, k: string, p: nat, q: nat)
    requires IsRun(initial, states, events) && n < |states| && CreatedOnly(events, k)
    requires p < |states[n].puts| && q < |states[n].puts| && states[n].puts[p].key == k && states[n].puts[q].key == k
    ensures var s := states[n];
            && (s.puts[p].pc == Finished(Stored) && s.puts[q].pc == Finished(Stored) ==> p == q)
            && (s.puts[p].pc == Finished(Stored) ==> k !in initial && Slot(s, k) == Some(Joined(s.puts[p].chunks)))
            && (s.puts[p].pc == Finished(Absent) ==> Slot(s, k).Some?)
  {
    EveryWinner(initial, states, events, n, k);
    EveryState(initial, states, events, n);
    var s := states[n];
    assert PutOk(s, p) && PutOk(s, q);
    if s.puts[p].placed {
      assert ObjectOk(s, initial, k);
      if k in initial {
        LinkRefinesCreate(initial, states, events, k);
        InitialStays(initial, states, events, n, k);
      }
    }
  }

  lemma {:induction false} InitialStays(
      initial: map<string, Object>, states: seq<State>, events: seq<Event>, n: nat, k: string)
    requires IsRun(initial, states, events) && n < |states| && CreatedOnly(events, k) && k in initial
    ensures k in states[n].objects && states[n].objects[k].author == None
  {
    if n == 0 {
    } else {
      InitialStays(initial, states, events, n - 1, k);
      EveryWinner(initial, states, events, n - 1, k);
      var s, ev := states[n - 1], events[n - 1];
      assert Enabled(s, ev) && states[n] == Apply(s, ev);
      if ev.On? {
        StepIsOwn(s, ev.put, ev.step);
        hide Do;
      }
    }
  }
}
