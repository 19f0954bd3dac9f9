/**
What a put in parts returns, told by the events of its run: which answer of the server, or which
failure, made it so.
*/
module UploadResults {
  import opened UploadOwnership

  ghost predicate StepOf(ev: Event, p: nat) {
    ev.On? && ev.put == p
  }

  /** The server answered a complete request of put `p` with `answer`. */
  ghost predicate Answered(events: seq<Event>, p: nat, n: nat, answer: CompleteAnswer)
    requires n <= |events|
  {
    exists i :: 0 <= i < n && StepOf(events[i], p) && Completes(events[i].step, answer)
  }

  predicate Completes(step: Step, answer: CompleteAnswer) {
    step.ServeComplete? && step.answer == answer
  }

  /** The create request was refused, or a part or the body failed. */
  ghost predicate Broke(events: seq<Event>, p: nat, n: nat)
    requires n <= |events|
  {
    exists i :: 0 <= i < n && StepOf(events[i], p) && (events[i].step.RefuseCreate? || events[i].step.PartsFail?)
  }

  ghost predicate WasDropped(events: seq<Event>, p: nat, n: nat)
    requires n <= |events|
  {
    exists i :: 0 <= i < n && StepOf(events[i], p) && events[i].step.Drop?
  }

  /** How often the server answered put `p` with a conflict. */
  ghost function Conflicts(events: seq<Event>, p: nat, n: nat): nat
    requires n <= |events|
  {
    if n == 0 then 0
    else Conflicts(events, p, n - 1) +
         (if StepOf(events[n - 1], p) && Completes(events[n - 1].step, Conflict) then 1 else 0)
  }

  // ---- The same, event by event. ----

  datatype Facts = Facts(committed: bool, present: bool, failure: bool, broke: bool, dropped: bool, conflicts: nat)

  function Learn(f: Facts, step: Step): Facts {
    Facts(f.committed || Completes(step, Committed), f.present || Completes(step, Present),
          f.failure || Completes(step, Failure), f.broke || step.RefuseCreate? || step.PartsFail?,
          f.dropped || step.Drop?, f.conflicts + (if Completes(step, Conflict) then 1 else 0))
  }

  ghost function Learned(events: seq<Event>, p: nat, n: nat): Facts
    requires n <= |events|
  {
    if n == 0 then Facts(false, false, false, false, false, 0)
    else
      var f := Learned(events, p, n - 1);
      if StepOf(events[n - 1], p) then Learn(f, events[n - 1].step) else f
  }

  lemma {:induction false} LearnedIsSo(events: seq<Event>, p: nat, n: nat)
    requires n <= |events|
    ensures var f := Learned(events, p, n);
            && (f.committed <==> Answered(events, p, n, Committed))
            && (f.present <==> Answered(events, p, n, Present))
            && (f.failure <==> Answered(events, p, n, Failure))
            && (f.broke <==> Broke(events, p, n)) && (f.dropped <==> WasDropped(events, p, n))
            && f.conflicts == Conflicts(events, p, n)
  {
    if n == 0 {
    } else {
      LearnedIsSo(events, p, n - 1);
      OneMoreAnswer(events, p, n - 1, Committed);
      OneMoreAnswer(events, p, n - 1, Present);
      OneMoreAnswer(events, p, n - 1, Failure);
      hide Answered;
    }
  }

  lemma OneMoreAnswer(events: seq<Event>, p: nat, n: nat, answer: CompleteAnswer)
    requires n < |events|
    ensures Answered(events, p, n + 1, answer) <==>
              Answered(events, p, n, answer) || (StepOf(events[n], p) && Completes(events[n].step, answer))
  {
  }

  predicate Quiet(f: Facts) {
    !f.committed && !f.present && !f.failure
  }

  /** What a put may return, given what has happened to it. */
  predicate Reports(result: Result, f: Facts) {
    && (result.Stored? <==> f.committed)
    && (result.Absent? <==> f.present)
    && (result.Error? <==> f.failure || f.broke || f.conflicts == CONDITIONAL_RETRIES + 1)
  }

  ghost predicate Told(p: Put, f: Facts) {
    f.dropped ||
    match p.pc
    case Awaiting => Quiet(f) && f.conflicts == 0 && (f.broke <==> p.task.Refused?)
    case Uploading => Quiet(f) && f.conflicts == 0 && !f.broke
    case Completing(attempt, None) => Quiet(f) && f.conflicts == attempt && !f.broke
    case Completing(attempt, Some(answer)) =>
      && !f.broke && (f.committed <==> answer.Committed?) && (f.present <==> answer.Present?)
      && (f.failure <==> answer.Failure?) && f.conflicts == attempt + (if answer.Conflict? then 1 else 0)
    case Aborting(_, result) => Reports(result, f)
    case Returned(result) => Reports(result, f)
    case Dropped => false
  }

  lemma StepTells(p: Put, step: Step, f: Facts)
    requires Owned(p) && Can(p, step) && Told(p, f)
    ensures Told(Do(p, step), Learn(f, step))
  {
  }

  lemma {:induction false} EveryPutIsTold(states: seq<seq<Put>>, events: seq<Event>, n: nat, p: nat)
    requires IsRun(states, events) && n < |states|
    ensures if p < |states[n]| then Told(states[n][p], Learned(events, p, n))
            else Learned(events, p, n) == Facts(false, false, false, false, false, 0)
  {
    if n == 0 {
    } else {
      EveryPutIsTold(states, events, n - 1, p);
      EveryUploadIsOwned(states, events, n - 1);
      var s, ev := states[n - 1], events[n - 1];
      assert Enabled(s, ev) && states[n] == Apply(s, ev);
      if ev.On? && ev.put == p { StepTells(s[p], ev.step, Learned(events, p, n - 1)); }
      hide Do, Can, Owned;
    }
  }

  /**
  What a put in parts returns, if it is not dropped: its object if and only if the server answered
  a complete request with success; none if and only if it answered that there is one already; an
  error if and only if the create was refused, a part or the body failed, a complete request failed
  or all nine met a conflict.
  */
  lemma PutReturns(states: seq<seq<Put>>, events: seq<Event>, n: nat, p: nat)
    requires IsRun(states, events) && n < |states| && p < |states[n]|
    requires states[n][p].pc.Returned? && !WasDropped(events, p, n)
    ensures var result := states[n][p].pc.result;
            && (result.Stored? <==> Answered(events, p, n, Committed))
            && (result.Absent? <==> Answered(events, p, n, Present))
            && (result.Error? <==>
                  Answered(events, p, n, Failure) || Broke(events, p, n) || Conflicts(events, p, n) == 9)
  {
    EveryPutIsTold(states, events, n, p);
    LearnedIsSo(events, p, n);
  }
}
