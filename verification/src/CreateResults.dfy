/**
What the callers of a conditional write in S3 report, told by the events of the run: which answer
reached the caller while it waited, and what the key held when that answer was given.
*/
module CreateResults {
  import opened Wrappers
  import opened Chunks
  import opened S3Create

  /** A copy of caller `i`'s request is treated so, and the caller, still waiting, gets the answer. */
  ghost predicate Reaches(s: State, ev: Event, i: nat, treatment: Treatment) {
    ev == On(i, Serve(treatment, true)) && i < |s.callers| && Waits(s.callers[i])
  }

  ghost predicate TookIt(s: State, ev: Event, i: nat) {
    Reaches(s, ev, i, Obeyed) && s.slot.None?
  }

  ghost predicate FoundOne(s: State, ev: Event, i: nat) {
    Reaches(s, ev, i, Obeyed) && s.slot.Some?
  }

  ghost predicate Clashed(s: State, ev: Event, i: nat) {
    Reaches(s, ev, i, Conflicting)
  }

  ghost predicate Failed(s: State, ev: Event, i: nat) {
    Reaches(s, ev, i, Refused) || ev == On(i, TimeOut)
  }

  ghost predicate Once(states: seq<State>, events: seq<Event>, i: nat, n: nat, happens: (State, Event, nat) -> bool)
    requires n <= |events| && n <= |states|
  {
    exists j :: 0 <= j < n && happens(states[j], events[j], i)
  }

  ghost function Clashes(states: seq<State>, events: seq<Event>, i: nat, n: nat): nat
    requires n <= |events| && n <= |states|
  {
    if n == 0 then 0
    else Clashes(states, events, i, n - 1) + (if Clashed(states[n - 1], events[n - 1], i) then 1 else 0)
  }

  // ---- The same, event by event. ----

  datatype Facts = Facts(took: bool, found: bool, failed: bool, clashes: nat)

  ghost function Learn(f: Facts, s: State, ev: Event, i: nat): Facts {
    Facts(f.took || TookIt(s, ev, i), f.found || FoundOne(s, ev, i), f.failed || Failed(s, ev, i),
          f.clashes + (if Clashed(s, ev, i) then 1 else 0))
  }

  ghost function Learned(states: seq<State>, events: seq<Event>, i: nat, n: nat): Facts
    requires n <= |events| && n <= |states|
  {
    if n == 0 then Facts(false, false, false, 0)
    else Learn(Learned(states, events, i, n - 1), states[n - 1], events[n - 1], i)
  }

  lemma {:induction false} LearnedIsSo(states: seq<State>, events: seq<Event>, i: nat, n: nat)
    requires n <= |events| && n <= |states|
    ensures var f := Learned(states, events, i, n);
            && (f.took <==> Once(states, events, i, n, TookIt))
            && (f.found <==> Once(states, events, i, n, FoundOne))
            && (f.failed <==> Once(states, events, i, n, Failed))
            && f.clashes == Clashes(states, events, i, n)
  {
    if n == 0 {
    } else {
      LearnedIsSo(states, events, i, n - 1);
      hide Reaches;
      OneMore(states, events, i, n - 1, TookIt);
      OneMore(states, events, i, n - 1, FoundOne);
      OneMore(states, events, i, n - 1, Failed);
      hide Once;
    }
  }

  lemma OneMore(states: seq<State>, events: seq<Event>, i: nat, n: nat, happens: (State, Event, nat) -> bool)
    requires n < |events| && n < |states|
    ensures Once(states, events, i, n + 1, happens) <==>
              Once(states, events, i, n, happens) || happens(states[n], events[n], i)
  {
  }

  ghost predicate Told(c: Caller, f: Facts) {
    match c.pc
    case Sending(attempt, None) => !f.took && !f.found && !f.failed && f.clashes == attempt
    case Sending(attempt, Some(answer)) =>
      && (f.took <==> answer.Created?) && (f.found <==> answer.Present?) && (f.failed <==> answer.Failure?)
      && f.clashes == attempt + (if answer.Conflict? then 1 else 0)
    case Finished(result) =>
      && (result.Stored? <==> f.took) && (result.Absent? <==> f.found)
      && (result.Error? <==> f.failed || f.clashes == 9)
    case Dropped => true
  }

  lemma StepTells(s: State, i: nat, step: Step, f: Facts)
    requires i < |s.callers| && Can(s.callers[i], step) && Told(s.callers[i], f) && CallerOk(s.slot, s.callers[i])
    ensures Told(Do(s.slot, s.callers[i], step), Learn(f, s, On(i, step), i))
  {
  }

  lemma {:induction false} EveryCallerIsTold(
      initial: Option<Bytes>, states: seq<State>, events: seq<Event>, n: nat, i: nat)
    requires IsRun(initial, states, events) && n < |states|
    ensures if i < |states[n].callers| then Told(states[n].callers[i], Learned(states, events, i, n))
            else Learned(states, events, i, n) == Facts(false, false, false, 0)
  {
    if n == 0 {
    } else {
      EveryCallerIsTold(initial, states, events, n - 1, i);
      EveryState(initial, states, events, n - 1);
      var s, ev := states[n - 1], events[n - 1];
      assert Enabled(s, ev) && states[n] == Apply(s, ev);
      if ev.On? && ev.caller == i { StepTells(s, i, ev.step, Learned(states, events, i, n - 1)); }
      hide Do, CallerOk;
    }
  }

  /**
  What a caller that was not dropped reports: an object if and only if an answer that reached it was
  given when its copy found the key empty; none if and only if one was given when the copy found an
  object; an error if and only if its request failed or timed out, or all nine met a conflict.
  */
  lemma CallerReports(initial: Option<Bytes>, states: seq<State>, events: seq<Event>, n: nat, i: nat)
    requires IsRun(initial, states, events) && n < |states|
    requires i < |states[n].callers| && states[n].callers[i].pc.Finished?
    ensures var result := states[n].callers[i].pc.result;
            && (result.Stored? <==> Once(states, events, i, n, TookIt))
            && (result.Absent? <==> Once(states, events, i, n, FoundOne))
            && (result.Error? <==> Once(states, events, i, n, Failed) || Clashes(states, events, i, n) == 9)
  {
    EveryCallerIsTold(initial, states, events, n, i);
    LearnedIsSo(states, events, i, n);
  }
}
