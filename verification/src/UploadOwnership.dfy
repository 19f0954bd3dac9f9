/**
Who answers for a multipart upload. Any number of puts run at once; each may be dropped at any
`await`, any request may be refused, and a request whose sender is gone may still be carried out.

The create request runs in a task of its own, which arms a guard for the upload and hands it to
the put through a channel; the put's guard, the channel and that task each abort the upload when
they are dropped with it. The runtime keeps running, so a spawned abort does run; and the answer
to a create request reaches its task.
*/
module UploadOwnership {
  import opened Wrappers
  import S3Put

  const CONDITIONAL_RETRIES := S3Put.CONDITIONAL_RETRIES

  datatype CreateTask = Requesting | Created | Armed | InChannel | Refused | Ended

  datatype CompleteAnswer = Committed | Present | Conflict | Failure

  datatype Result = Stored | Absent | Error

  datatype Pc =
    | Awaiting
    | Uploading
    | Completing(attempt: nat, answer: Option<CompleteAnswer>)
    | Aborting(answered: bool, result: Result)
    | Returned(result: Result)
    | Dropped

  /**
  A put and its upload: where the put and the create task stand, how many aborts dropped guards
  have spawned, which requests of a dropped put are still on their way, whether the upload is open
  at the server, whether its object was stored, and whether a request to abort it failed.
  */
  datatype Put = Put(
    pc: Pc, task: CreateTask, spawned: nat, orphanComplete: bool, orphanAbort: bool,
    open: bool, stored: bool, abortFailed: bool)

  datatype Step =
    | ServeCreate
    | RefuseCreate
    | Arm
    | Send
    | Receive
    | PartsDone
    | PartsFail
    | ServeComplete(commits: bool, answer: CompleteAnswer)
    | AfterComplete
    | ServeAbort(works: bool)
    | AfterAbort
    | Drop
    | RunSpawned(works: bool)
    | ServeOrphanComplete(commits: bool)
    | ServeOrphanAbort(works: bool)
    | Sweep

  function NewPut(): Put {
    Put(Awaiting, Requesting, 0, false, false, false, false, false)
  }

  /** A server that answers a complete with success has committed it. */
  predicate Can(p: Put, step: Step) {
    match step
    case ServeCreate => p.task.Requesting?
    case RefuseCreate => p.task.Requesting?
    case Arm => p.task.Created?
    case Send => p.task.Armed?
    case Receive => p.pc.Awaiting? && (p.task.InChannel? || p.task.Refused?)
    case PartsDone => p.pc.Uploading?
    case PartsFail => p.pc.Uploading?
    case ServeComplete(commits, answer) =>
      && p.pc.Completing? && p.pc.answer.None?
      && (commits ==> p.open) && (answer.Committed? ==> commits)
    case AfterComplete => p.pc.Completing? && p.pc.answer.Some?
    case ServeAbort(_) => p.pc.Aborting? && !p.pc.answered
    case AfterAbort => p.pc.Aborting? && p.pc.answered
    case Drop => !p.pc.Returned? && !p.pc.Dropped?
    case RunSpawned(_) => p.spawned > 0
    case ServeOrphanComplete(commits) => p.orphanComplete && (commits ==> p.open)
    case ServeOrphanAbort(_) => p.orphanAbort
    case Sweep => true
  }

  function Abort(p: Put, works: bool): Put {
    p.(open := p.open && !works, abortFailed := p.abortFailed || !works)
  }

  function Commit(p: Put, commits: bool): Put {
    p.(open := p.open && !commits, stored := p.stored || commits)
  }

  /** The put's future is dropped; so is whatever guard it holds or has waiting in the channel. */
  function DropPut(p: Put): Put {
    match p.pc
    case Awaiting =>
      if p.task.InChannel? then p.(pc := Dropped, task := Ended, spawned := p.spawned + 1)
      else if p.task.Refused? then p.(pc := Dropped, task := Ended)
      else p.(pc := Dropped)
    case Completing(_, answer) => p.(pc := Dropped, spawned := p.spawned + 1, orphanComplete := answer.None?)
    case Aborting(answered, _) => p.(pc := Dropped, spawned := p.spawned + 1, orphanAbort := !answered)
    case _ => p.(pc := Dropped, spawned := p.spawned + 1)
  }

  function AfterCompletePc(attempt: nat, answer: CompleteAnswer): Pc {
    match answer
    case Committed => Returned(Stored)
    case Present => Aborting(false, Absent)
    case Conflict => if attempt < CONDITIONAL_RETRIES then Completing(attempt + 1, None) else Aborting(false, Error)
    case Failure => Aborting(false, Error)
  }

  function Do(p: Put, step: Step): Put
    requires Can(p, step)
  {
    match step
    case ServeCreate => p.(task := Created, open := true)
    case RefuseCreate => p.(task := if p.pc.Awaiting? then Refused else Ended)
    case Arm => p.(task := Armed)
    case Send =>
      if p.pc.Awaiting? then p.(task := InChannel) else p.(task := Ended, spawned := p.spawned + 1)
    case Receive => p.(task := Ended, pc := if p.task.InChannel? then Uploading else Returned(Error))
    case PartsDone => p.(pc := Completing(0, None))
    case PartsFail => p.(pc := Aborting(false, Error))
    case ServeComplete(commits, answer) => Commit(p, commits).(pc := p.pc.(answer := Some(answer)))
    case AfterComplete => p.(pc := AfterCompletePc(p.pc.attempt, p.pc.answer.value))
    case ServeAbort(works) => Abort(p, works).(pc := p.pc.(answered := true))
    case AfterAbort => p.(pc := Returned(p.pc.result))
    case Drop => DropPut(p)
    case RunSpawned(works) => Abort(p, works).(spawned := p.spawned - 1)
    case ServeOrphanComplete(commits) => Commit(p, commits).(orphanComplete := false)
    case ServeOrphanAbort(works) => Abort(p, works).(orphanAbort := false)
    case Sweep => p.(open := false)
  }

  // ---- Somebody is obliged. ----

  /** The upload is held by a party that will complete or abort it. */
  predicate Held(p: Put) {
    || p.task.Created? || p.task.Armed? || p.task.InChannel?
    || p.pc.Uploading? || p.pc.Completing? || (p.pc.Aborting? && !p.pc.answered)
    || p.spawned > 0
  }

  ghost predicate Owned(p: Put) {
    && (p.open ==> Held(p) || p.abortFailed)
    && (p.task.InChannel? || p.task.Refused? ==> p.pc.Awaiting?)
    && (p.pc.Uploading? || p.pc.Completing? || p.pc.Aborting? || p.pc.Returned? ==> p.task.Ended?)
    && (p.pc.Awaiting? ==> !p.task.Ended?)
    && (p.task.Requesting? ==> !p.open)
    && (p.pc.Completing? ==> p.pc.attempt <= CONDITIONAL_RETRIES)
    && ((p.pc.Completing? && p.pc.answer == Some(Committed)) || p.pc == Returned(Stored) ==> !p.open && p.stored)
    && (p.pc.Aborting? ==> !p.pc.result.Stored?)
  }

  lemma OwnedKept(p: Put, step: Step)
    requires Owned(p) && Can(p, step)
    ensures Owned(Do(p, step))
  {
    hide Owned, Can, Do;
    match step
    case ServeCreate => CreateOwned(p, step);
    case RefuseCreate => CreateOwned(p, step);
    case Arm => CreateOwned(p, step);
    case Send => CreateOwned(p, step);
    case Receive => CreateOwned(p, step);
    case PartsDone => CompleteOwned(p, step);
    case PartsFail => CompleteOwned(p, step);
    case ServeComplete(_, _) => CompleteOwned(p, step);
    case AfterComplete => CompleteOwned(p, step);
    case ServeAbort(_) => AbortOwned(p, step);
    case AfterAbort => AbortOwned(p, step);
    case Drop => DropOwned(p);
    case RunSpawned(_) => AbortOwned(p, step);
    case ServeOrphanComplete(_) => AbortOwned(p, step);
    case ServeOrphanAbort(_) => AbortOwned(p, step);
    case Sweep => AbortOwned(p, step);
  }

  lemma CreateOwned(p: Put, step: Step)
    requires step.ServeCreate? || step.RefuseCreate? || step.Arm? || step.Send? || step.Receive?
    requires Owned(p) && Can(p, step)
    ensures Owned(Do(p, step))
  {
  }

  lemma CompleteOwned(p: Put, step: Step)
    requires step.PartsDone? || step.PartsFail? || step.ServeComplete? || step.AfterComplete?
    requires Owned(p) && Can(p, step)
    ensures Owned(Do(p, step))
  {
  }

  lemma AbortOwned(p: Put, step: Step)
    requires step.ServeAbort? || step.AfterAbort? || step.RunSpawned? || step.ServeOrphanComplete? ||
             step.ServeOrphanAbort? || step.Sweep?
    requires Owned(p) && Can(p, step)
    ensures Owned(Do(p, step))
  {
  }

  lemma DropOwned(p: Put)
    requires Owned(p) && Can(p, Drop)
    ensures Owned(Do(p, Drop))
  {
  }

  /**
  A request already sent is carried out, or not, as if its sender still waited: dropping a put
  during a complete or an abort takes nothing of what the server may do with it, and the guard's
  abort comes on top.
  */
  lemma DroppedRequestsGoOn(p: Put, commits: bool, works: bool)
    requires (p.pc.Completing? && p.pc.answer.None?) || (p.pc.Aborting? && !p.pc.answered)
    ensures var t := Do(p, Drop);
            && Can(t, RunSpawned(works))
            && (p.pc.Completing? ==>
                  && (Can(t, ServeOrphanComplete(commits)) <==> Can(p, ServeComplete(commits, Failure)))
                  && (Can(p, ServeComplete(commits, Failure)) ==>
                        var served := Do(p, ServeComplete(commits, Failure));
                        var orphan := Do(t, ServeOrphanComplete(commits));
                        orphan.open == served.open && orphan.stored == served.stored))
            && (p.pc.Aborting? ==>
                  && Can(t, ServeOrphanAbort(works))
                  && Do(t, ServeOrphanAbort(works)).open == Do(p, ServeAbort(works)).open)
  {
  }

  /** Steps the put still has ahead of it, counted generously. */
  function Rank(p: Put): nat
    requires p.pc.Completing? ==> p.pc.attempt <= CONDITIONAL_RETRIES
  {
    PutRank(p.pc) + TaskRank(p.task) +
    p.spawned + (if p.orphanComplete then 1 else 0) + (if p.orphanAbort then 1 else 0)
  }

  function PutRank(pc: Pc): nat
    requires pc.Completing? ==> pc.attempt <= CONDITIONAL_RETRIES
  {
    match pc
    case Awaiting => 40
    case Uploading => 39
    case Completing(attempt, answer) => 10 + 2 * (CONDITIONAL_RETRIES - attempt) + (if answer.None? then 1 else 0)
    case Aborting(answered, _) => if answered then 4 else 5
    case _ => 0
  }

  function TaskRank(task: CreateTask): nat {
    match task
    case Requesting => 4
    case Created => 3
    case Armed => 2
    case Ended => 0
    case _ => 1
  }

  /** Nothing is left to run. */
  predicate AtRest(p: Put) {
    && (p.pc.Returned? || p.pc.Dropped?) && p.task.Ended? && p.spawned == 0
    && !p.orphanComplete && !p.orphanAbort
  }

  /** Every step but the sweep's brings the put nearer its end, and until then there is one to take. */
  lemma RankDrops(p: Put, step: Step)
    requires Owned(p) && Can(p, step) && !step.Sweep?
    ensures Owned(Do(p, step)) && Rank(Do(p, step)) < Rank(p)
  {
    OwnedKept(p, step);
    if step.Drop? { DropRanks(p); } else { StepRanks(p, step); }
  }

  lemma DropRanks(p: Put)
    requires Can(p, Drop) && (p.pc.Completing? ==> p.pc.attempt <= CONDITIONAL_RETRIES)
    ensures Rank(DropPut(p)) < Rank(p)
  {
    if p.pc.Awaiting? { WaitingDropRanks(p); } else { WorkingDropRanks(p); }
  }

  lemma WaitingDropRanks(p: Put)
    requires p.pc.Awaiting?
    ensures Rank(DropPut(p)) < Rank(p)
  {
  }

  lemma WorkingDropRanks(p: Put)
    requires Can(p, Drop) && !p.pc.Awaiting? && (p.pc.Completing? ==> p.pc.attempt <= CONDITIONAL_RETRIES)
    ensures Rank(DropPut(p)) < Rank(p)
  {
    hide TaskRank;
  }

  lemma StepRanks(p: Put, step: Step)
    requires Owned(p) && Can(p, step) && !step.Sweep? && !step.Drop?
    ensures Owned(Do(p, step)) ==> Rank(Do(p, step)) < Rank(p)
  {
    if step.PartsDone? || step.PartsFail? || step.ServeComplete? || step.AfterComplete? {
      CompleteRanks(p, step);
    } else {
      OtherRanks(p, step);
    }
  }

  lemma CompleteRanks(p: Put, step: Step)
    requires step.PartsDone? || step.PartsFail? || step.ServeComplete? || step.AfterComplete?
    requires Owned(p) && Can(p, step)
    ensures Owned(Do(p, step)) ==> Rank(Do(p, step)) < Rank(p)
  {
    hide TaskRank;
  }

  lemma OtherRanks(p: Put, step: Step)
    requires !step.PartsDone? && !step.PartsFail? && !step.ServeComplete? && !step.AfterComplete?
    requires Owned(p) && Can(p, step) && !step.Sweep? && !step.Drop?
    ensures Owned(Do(p, step)) ==> Rank(Do(p, step)) < Rank(p)
  {
  }

  lemma SomethingToDo(p: Put) returns (step: Step)
    requires Owned(p) && !AtRest(p)
    ensures Can(p, step) && !step.Sweep? && !step.Drop?
  {
    if p.pc.Uploading? { step := PartsDone; }
    else if p.pc.Completing? { step := if p.pc.answer.None? then ServeComplete(false, Failure) else AfterComplete; }
    else if p.pc.Aborting? { step := if p.pc.answered then AfterAbort else ServeAbort(true); }
    else if p.spawned > 0 { step := RunSpawned(true); }
    else if p.orphanComplete { step := ServeOrphanComplete(false); }
    else if p.orphanAbort { step := ServeOrphanAbort(true); }
    else {
      match p.task {
        case Requesting => step := ServeCreate;
        case Created => step := Arm;
        case Armed => step := Send;
        case InChannel => step := Receive;
        case Refused => step := Receive;
        case Ended => assert false;
      }
    }
  }

  // ---- Any number of puts. ----

  datatype Event = Start | On(put: nat, step: Step)

  predicate Enabled(s: seq<Put>, ev: Event) {
    ev.Start? || (ev.put < |s| && Can(s[ev.put], ev.step))
  }

  function Apply(s: seq<Put>, ev: Event): seq<Put>
    requires Enabled(s, ev)
  {
    if ev.Start? then s + [NewPut()] else s[ev.put := Do(s[ev.put], ev.step)]
  }

  ghost predicate IsRun(states: seq<seq<Put>>, events: seq<Event>) {
    && |states| == |events| + 1 && states[0] == []
    && forall i :: 0 <= i < |events| ==> Enabled(states[i], events[i]) && states[i + 1] == Apply(states[i], events[i])
  }

  ghost predicate AllOwned(s: seq<Put>) {
    forall i :: 0 <= i < |s| ==> Owned(s[i])
  }

  /** In every state of every run, every open upload has a party obliged to it, or its abort failed. */
  lemma {:induction false} EveryUploadIsOwned(states: seq<seq<Put>>, events: seq<Event>, n: nat)
    requires IsRun(states, events) && n < |states|
    ensures AllOwned(states[n])
    ensures forall i :: 0 <= i < |states[n]| && states[n][i].open ==> Held(states[n][i]) || states[n][i].abortFailed
  {
    if n == 0 {
    } else {
      EveryUploadIsOwned(states, events, n - 1);
      var s, ev := states[n - 1], events[n - 1];
      assert Enabled(s, ev) && states[n] == Apply(s, ev);
      if ev.On? { OwnedKept(s[ev.put], ev.step); }
      hide Do, Can;
      assert AllOwned(Apply(s, ev));
    }
    assert AllOwned(states[n]);
  }

  /**
  Once every put has returned or been dropped and every task has run, no upload is open but those
  whose abort request failed, and a put that reported its object stored it.
  */
  lemma NothingLeftOpen(states: seq<seq<Put>>, events: seq<Event>, n: nat, i: nat)
    requires IsRun(states, events) && n < |states| && i < |states[n]|
    ensures AtRest(states[n][i]) && states[n][i].open ==> states[n][i].abortFailed
    ensures states[n][i].pc == Returned(Stored) ==> states[n][i].stored && !states[n][i].open
  {
    EveryUploadIsOwned(states, events, n);
  }

  function TotalRank(s: seq<Put>): nat
    requires AllOwned(s)
  {
    if s == [] then 0 else Rank(s[0]) + TotalRank(s[1..])
  }

  lemma {:induction false} OneRankDrops(s: seq<Put>, i: nat, p: Put)
    requires AllOwned(s) && i < |s| && Owned(p) && Rank(p) < Rank(s[i])
    ensures AllOwned(s[i := p]) && TotalRank(s[i := p]) < TotalRank(s)
  {
    hide Owned, Rank;
    if i > 0 {
      OneRankDrops(s[1..], i - 1, p);
      assert s[i := p][1..] == s[1..][i - 1 := p];
    } else {
      assert s[i := p][1..] == s[1..];
    }
  }

  /**
  The run cannot go on for ever without new puts or sweeps: from any state, at most `TotalRank`
  further events can happen before everything is at rest.
  */
  lemma {:induction false} RunsEnd(states: seq<seq<Put>>, events: seq<Event>, m: nat, n: nat)
    requires IsRun(states, events) && m <= n < |states|
    requires forall i :: m <= i < n ==> events[i].On? && !events[i].step.Sweep?
    ensures AllOwned(states[m]) && AllOwned(states[n])
    ensures TotalRank(states[n]) + (n - m) <= TotalRank(states[m])
  {
    EveryUploadIsOwned(states, events, n);
    EveryUploadIsOwned(states, events, m);
    if m == n {
    } else {
      RunsEnd(states, events, m, n - 1);
      var s, ev := states[n - 1], events[n - 1];
      assert Enabled(s, ev) && states[n] == Apply(s, ev);
      RankDrops(s[ev.put], ev.step);
      hide Do, Can, Rank, Owned;
      OneRankDrops(s, ev.put, Do(s[ev.put], ev.step));
    }
  }
}
