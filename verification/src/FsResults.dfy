/**
What a put of the filesystem store reports, told by the events of its run: exactly when it reports
the object stored, when it reports one there already, and that it reports an error otherwise.
*/
module FsResults {
  import opened FsPut

  /** The step went well; a body that fails and a caller that goes away did not. */
  predicate Works(step: Step) {
    match step
    case Resolve(ok) => ok
    case OpenRuns(ok) => ok
    case BodyFails => false
    case HandChunk => true
    case Lands(ok, _) => ok
    case Flush(ok) => ok
    case SendMove => true
    case MoveRuns(ok) => ok
    case SeeMove(synced) => synced
    case Unlink(_) => true
    case Drop(_) => false
  }

  ghost predicate StepOf(ev: Event, p: nat) {
    ev.On? && ev.put == p
  }

  /** Every step of put `p` among the first `n` events went well. */
  ghost predicate AllWorked(events: seq<Event>, p: nat, n: nat)
    requires n <= |events|
  {
    forall i :: 0 <= i < n && StepOf(events[i], p) ==> Works(events[i].step)
  }

  ghost predicate WasDropped(events: seq<Event>, p: nat, n: nat)
    requires n <= |events|
  {
    exists i :: 0 <= i < n && StepOf(events[i], p) && events[i].step.Drop?
  }

  /** Put `p` is conditional and its key holds an object. */
  ghost predicate Occupied(s: State, p: nat) {
    p < |s.puts| && s.puts[p].ifAbsent && s.puts[p].key in s.objects
  }

  ghost predicate OccupiedAtResolve(s: State, ev: Event, p: nat) {
    ev == On(p, Resolve(true)) && Occupied(s, p)
  }

  /** The rename or link of put `p` works, its temporary is there and nothing is in its way. */
  ghost predicate Places(s: State, ev: Event, p: nat) {
    ev == On(p, MoveRuns(true)) && p in s.temps && !Occupied(s, p)
  }

  ghost predicate OccupiedAtLink(s: State, ev: Event, p: nat) {
    ev == On(p, MoveRuns(true)) && p in s.temps && Occupied(s, p)
  }

  /** The rename or link of put `p` finds no temporary: a concurrent deletion took it away. */
  ghost predicate Robbed(s: State, ev: Event, p: nat) {
    ev == On(p, MoveRuns(true)) && p !in s.temps
  }

  ghost predicate Once(states: seq<State>, events: seq<Event>, p: nat, n: nat, happens: (State, Event, nat) -> bool)
    requires n <= |events| && n <= |states|
  {
    exists i :: 0 <= i < n && happens(states[i], events[i], p)
  }

  // ---- The same, event by event. ----

  datatype Facts = Facts(worked: bool, dropped: bool, early: bool, placed: bool, late: bool, robbed: bool)

  ghost function Learn(f: Facts, s: State, ev: Event, p: nat): Facts {
    if !StepOf(ev, p) then f
    else Facts(f.worked && Works(ev.step), f.dropped || ev.step.Drop?, f.early || OccupiedAtResolve(s, ev, p),
               f.placed || Places(s, ev, p), f.late || OccupiedAtLink(s, ev, p), f.robbed || Robbed(s, ev, p))
  }

  ghost function Learned(states: seq<State>, events: seq<Event>, p: nat, n: nat): Facts
    requires n <= |events| && n <= |states|
  {
    if n == 0 then Facts(true, false, false, false, false, false)
    else Learn(Learned(states, events, p, n - 1), states[n - 1], events[n - 1], p)
  }

  lemma {:induction false} LearnedIsSo(states: seq<State>, events: seq<Event>, p: nat, n: nat)
    requires n <= |events| && n <= |states|
    ensures var f := Learned(states, events, p, n);
            && (f.worked <==> AllWorked(events, p, n))
            && (f.dropped <==> WasDropped(events, p, n))
            && (f.early <==> Once(states, events, p, n, OccupiedAtResolve))
            && (f.placed <==> Once(states, events, p, n, Places))
            && (f.late <==> Once(states, events, p, n, OccupiedAtLink))
            && (f.robbed <==> Once(states, events, p, n, Robbed))
  {
    if n == 0 {
    } else {
      LearnedIsSo(states, events, p, n - 1);
      LearnIs(Learned(states, events, p, n - 1), states[n - 1], events[n - 1], p);
      hide Learn, Works, OccupiedAtResolve, Places, OccupiedAtLink, Robbed;
      OneMore(states, events, p, n - 1, OccupiedAtResolve);
      OneMore(states, events, p, n - 1, Places);
      OneMore(states, events, p, n - 1, OccupiedAtLink);
      OneMore(states, events, p, n - 1, Robbed);
    }
  }

  lemma LearnIs(f: Facts, s: State, ev: Event, p: nat)
    ensures var g := Learn(f, s, ev, p);
            && (g.worked <==> f.worked && (StepOf(ev, p) ==> Works(ev.step)))
            && (g.dropped <==> f.dropped || (StepOf(ev, p) && ev.step.Drop?))
            && (g.early <==> f.early || OccupiedAtResolve(s, ev, p))
            && (g.placed <==> f.placed || Places(s, ev, p))
            && (g.late <==> f.late || OccupiedAtLink(s, ev, p))
            && (g.robbed <==> f.robbed || Robbed(s, ev, p))
  {
  }

  lemma OneMore(states: seq<State>, events: seq<Event>, p: nat, n: nat, happens: (State, Event, nat) -> bool)
    requires n < |events| && n < |states|
    ensures Once(states, events, p, n + 1, happens) <==>
              Once(states, events, p, n, happens) || happens(states[n], events[n], p)
  {
  }

  /** Where a put stands, given what has happened to it. */
  ghost predicate Told(put: Put, f: Facts) {
    if f.dropped then put.pc.LostOpen? || put.pc.LostGuard? || put.pc.LostMove? || put.pc == Finished(Cancelled)
    else
      match put.pc
      case Writing(_, _, failed) => !f.early && !f.placed && !f.late && !f.robbed && (f.worked <==> !failed)
      case Moved(outcome) =>
        && !f.early && (outcome.Done? <==> f.placed) && (outcome.Exists? <==> f.late) && (f.placed ==> f.worked)
        && (f.robbed ==> outcome.Failed?) && (outcome.Failed? && f.worked ==> f.robbed)
      case Removing(result) => Reports(result, f)
      case Finished(result) => Reports(result, f)
      case LostOpen => false
      case LostGuard => false
      case LostMove => false
      case _ => f.worked && !f.early && !f.placed && !f.late && !f.robbed
  }

  predicate Reports(result: Result, f: Facts) {
    && !result.Cancelled?
    && (result.Stored? <==> f.worked && f.placed)
    && (result.Absent? <==> f.early || f.late)
    && (result.Error? && f.worked ==> f.robbed)
    && (f.robbed ==> result.Error?)
  }

  lemma StepTells(s: State, p: nat, step: Step, f: Facts)
    requires Can(s, p, step) && Sane(s.puts[p]) && Told(s.puts[p], f)
    ensures var t := Do(s, p, step); |t.puts| == |s.puts| && Told(t.puts[p], Learn(f, s, On(p, step), p))
  {
  }

  lemma {:induction false} EveryPutIsTold(
      initial: map<string, Object>, states: seq<State>, events: seq<Event>, n: nat, p: nat)
    requires IsRun(initial, states, events) && n < |states|
    ensures if p < |states[n].puts| then Told(states[n].puts[p], Learned(states, events, p, n))
            else Learned(states, events, p, n) == Facts(true, false, false, false, false, false)
  {
    if n == 0 {
    } else {
      EveryPutIsTold(initial, states, events, n - 1, p);
      EveryState(initial, states, events, n - 1);
      var s, ev := states[n - 1], events[n - 1];
      assert Enabled(s, ev) && states[n] == Apply(s, ev);
      var f := Learned(states, events, p, n - 1);
      hide Learned;
      if ev.On? {
        StepIsOwn(s, ev.put, ev.step);
        assert PutOk(s, ev.put);
        if ev.put == p { StepTells(s, p, ev.step, f); }
      }
      hide Do, Can, Told, PutOk;
    }
  }

  /**
  What a put reports. A put that was not dropped reports its object stored if and only if every
  step of it went well and its rename or link found its temporary and, if it is conditional, no
  object at the key; that there is one already if and only if it is conditional and found one, when
  it resolved its key or when it linked; and an error otherwise, which after steps that all went
  well means that its temporary had been taken away. A dropped one reports nothing.
  */
  lemma PutReports(initial: map<string, Object>, states: seq<State>, events: seq<Event>, n: nat, p: nat)
    requires IsRun(initial, states, events) && n < |states|
    requires p < |states[n].puts| && states[n].puts[p].pc.Finished?
    ensures var result := states[n].puts[p].pc.result;
            && (result.Cancelled? <==> WasDropped(events, p, n))
            && (!WasDropped(events, p, n) ==>
                  && (result.Stored? <==> AllWorked(events, p, n) && Once(states, events, p, n, Places))
                  && (result.Absent? <==>
                        || Once(states, events, p, n, OccupiedAtResolve)
                        || Once(states, events, p, n, OccupiedAtLink))
                  && (AllWorked(events, p, n) ==> (result.Error? <==> Once(states, events, p, n, Robbed))))
  {
    EveryPutIsTold(initial, states, events, n, p);
    LearnedIsSo(states, events, p, n);
  }
}
