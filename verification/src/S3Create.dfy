/**
Conditional writes of one key in S3, by any number of callers at once. A request is carried out at
any moment after it was sent, whether its sender still waits or not; its answer may be lost; the
SDK may send it again while the first copy is still on its way; and the caller's loop sends it
again after a 409, up to the retry limit.
*/
module S3Create {
  import opened Wrappers
  import opened Chunks
  import opened CreateSpec
  import opened S3Put

  datatype Answer = Created | Present | Conflict | Failure

  datatype Result = Stored | Absent | Error

  datatype Pc = Sending(attempt: nat, answer: Option<Answer>) | Finished(result: Result) | Dropped

  /**
  A caller: its body, where it stands, how many copies of its request are on their way, how often
  its loop has sent it, how long it has slept, and whether a copy stored the body.
  */
  datatype Caller = Caller(body: Bytes, pc: Pc, copies: nat, sends: nat, slept: nat, stored: bool)

  datatype State = State(slot: Option<Bytes>, callers: seq<Caller>)

  /** What the server makes of a copy: it obeys the condition, or refuses without effect. */
  datatype Treatment = Obeyed | Conflicting | Refused

  datatype Step =
    | Serve(treatment: Treatment, delivered: bool)
    | Resend
    | TimeOut
    | See
    | Drop

  datatype Event = Begin(body: Bytes) | On(caller: nat, step: Step)

  predicate Waits(c: Caller) {
    c.pc.Sending? && c.pc.answer.None?
  }

  predicate Can(c: Caller, step: Step) {
    match step
    case Serve(_, _) => c.copies > 0
    case Resend => Waits(c)
    case TimeOut => Waits(c)
    case See => c.pc.Sending? && c.pc.answer.Some?
    case Drop => c.pc.Sending?
  }

  predicate Enabled(s: State, ev: Event) {
    ev.On? ==> ev.caller < |s.callers| && Can(s.callers[ev.caller], ev.step)
  }

  /** A caller whose loop has an answer: done, or another attempt after a pause. */
  function React(c: Caller): Caller
    requires c.pc.Sending? && c.pc.answer.Some?
  {
    match c.pc.answer.value
    case Created => c.(pc := Finished(Stored))
    case Present => c.(pc := Finished(Absent))
    case Conflict =>
      var attempt := c.pc.attempt + 1;
      if c.pc.attempt < CONDITIONAL_RETRIES then
        c.(pc := Sending(attempt, None), copies := c.copies + 1, sends := c.sends + 1,
           slept := c.slept + ConditionalBackoff(attempt))
      else c.(pc := Finished(Error))
    case Failure => c.(pc := Finished(Error))
  }

  function AnswerTo(slot: Option<Bytes>, treatment: Treatment): Answer {
    match treatment
    case Obeyed => if slot.None? then Created else Present
    case Conflicting => Conflict
    case Refused => Failure
  }

  function Served(slot: Option<Bytes>, c: Caller, treatment: Treatment, delivered: bool): Caller
    requires c.copies > 0
  {
    var answer := AnswerTo(slot, treatment);
    c.(copies := c.copies - 1,
       stored := c.stored || answer.Created?,
       pc := if delivered && Waits(c) then Sending(c.pc.attempt, Some(answer)) else c.pc)
  }

  function Do(slot: Option<Bytes>, c: Caller, step: Step): Caller
    requires Can(c, step)
  {
    match step
    case Serve(treatment, delivered) => Served(slot, c, treatment, delivered)
    case Resend => c.(copies := c.copies + 1)
    case TimeOut => c.(pc := Sending(c.pc.attempt, Some(Failure)))
    case See => React(c)
    case Drop => c.(pc := Dropped)
  }

  function Apply(s: State, ev: Event): State
    requires Enabled(s, ev)
  {
    match ev
    case Begin(body) => s.(callers := s.callers + [Caller(body, Sending(0, None), 1, 1, 0, false)])
    case On(i, step) =>
      var c := s.callers[i];
      State(if step.Serve? && AnswerTo(s.slot, step.treatment).Created? then Some(c.body) else s.slot,
            s.callers[i := Do(s.slot, c, step)])
  }

  ghost predicate IsRun(initial: Option<Bytes>, states: seq<State>, events: seq<Event>) {
    && |states| == |events| + 1 && states[0] == State(initial, [])
    && forall i :: 0 <= i < |events| ==> Enabled(states[i], events[i]) && states[i + 1] == Apply(states[i], events[i])
  }

  // ---- What every step keeps. ----

  ghost predicate CallerOk(slot: Option<Bytes>, c: Caller) {
    && (c.stored ==> slot == Some(c.body))
    && (c.pc == Finished(Stored) || (c.pc.Sending? && c.pc.answer == Some(Created)) ==> c.stored)
    && (c.pc == Finished(Absent) || (c.pc.Sending? && c.pc.answer == Some(Present)) ==> slot.Some?)
    && (c.pc.Sending? ==>
          c.pc.attempt <= CONDITIONAL_RETRIES && c.sends == c.pc.attempt + 1 && c.slept == TotalBackoff(c.pc.attempt))
    && 1 <= c.sends <= CONDITIONAL_RETRIES + 1 && c.slept == TotalBackoff(c.sends - 1)
  }

  ghost predicate Inv(initial: Option<Bytes>, s: State) {
    && (forall i :: 0 <= i < |s.callers| ==> CallerOk(s.slot, s.callers[i]))
    && (forall i, j :: 0 <= i < j < |s.callers| ==> !(s.callers[i].stored && s.callers[j].stored))
    && (s.slot.None? ==> initial.None? && forall i :: 0 <= i < |s.callers| ==> !s.callers[i].stored)
    && (initial.Some? ==> s.slot == initial && forall i :: 0 <= i < |s.callers| ==> !s.callers[i].stored)
  }

  lemma CallerKept(s: State, i: nat, step: Step)
    requires i < |s.callers| && Can(s.callers[i], step) && CallerOk(s.slot, s.callers[i])
    requires s.slot.None? ==> !s.callers[i].stored
    ensures CallerOk(Apply(s, On(i, step)).slot, Do(s.slot, s.callers[i], step))
    ensures Do(s.slot, s.callers[i], step).stored ==> s.callers[i].stored || s.slot.None?
    ensures Apply(s, On(i, step)).slot == s.slot || s.slot.None?
    ensures Apply(s, On(i, step)).slot.None? ==> !Do(s.slot, s.callers[i], step).stored
  {
    hide ConditionalBackoff;
    if step.Serve? || step.Resend? || step.TimeOut? || step.Drop? { hide TotalBackoff; }
  }

  lemma InvKept(initial: Option<Bytes>, s: State, ev: Event)
    requires Inv(initial, s) && Enabled(s, ev)
    ensures Inv(initial, Apply(s, ev)) && Creates(s.slot, Apply(s, ev).slot)
  {
    if ev.On? {
      CallerKept(s, ev.caller, ev.step);
      hide Do, Can, TotalBackoff;
      var t := Apply(s, ev);
      forall j | 0 <= j < |t.callers| ensures CallerOk(t.slot, t.callers[j]) {
        assert CallerOk(s.slot, s.callers[j]);
      }
    }
  }

  lemma {:induction false} EveryState(initial: Option<Bytes>, states: seq<State>, events: seq<Event>, n: nat)
    requires IsRun(initial, states, events) && n < |states|
    ensures Inv(initial, states[n])
    ensures n > 0 ==> Creates(states[n - 1].slot, states[n].slot)
  {
    if n == 0 {
    } else {
      EveryState(initial, states, events, n - 1);
      hide Inv, Apply, Enabled;
      InvKept(initial, states[n - 1], events[n - 1]);
    }
  }

  ghost function Slots(states: seq<State>): seq<Option<Bytes>> {
    seq(|states|, i requires 0 <= i < |states| => states[i].slot)
  }

  /** The key only ever goes from empty to one body, and stays there. */
  lemma IfNoneMatchRefinesCreate(initial: Option<Bytes>, states: seq<State>, events: seq<Event>)
    requires IsRun(initial, states, events)
    ensures OnlyCreates(Slots(states))
  {
    forall i | 0 <= i < |states| - 1 ensures Creates(Slots(states)[i], Slots(states)[i + 1]) {
      EveryState(initial, states, events, i + 1);
    }
  }

  /**
  Agreement: at most one caller reports an object and it is that caller's body, and a caller that
  reports none saw an object there. No caller sends more than nine requests of its own or sleeps
  longer than 7.9 s over them.
  */
  lemma IfNoneMatchAgreement(initial: Option<Bytes>, states: seq<State>, events: seq<Event>, n: nat, i: nat, j: nat)
    requires IsRun(initial, states, events) && n < |states| && i < |states[n].callers| && j < |states[n].callers|
    ensures var s := states[n];
            && (s.callers[i].pc == Finished(Stored) && s.callers[j].pc == Finished(Stored) ==> i == j)
            && (s.callers[i].pc == Finished(Stored) ==> initial.None? && s.slot == Some(s.callers[i].body))
            && (s.callers[i].pc == Finished(Absent) ==> s.slot.Some?)
            && s.callers[i].sends <= 9 && s.callers[i].slept <= 7900
  {
    EveryState(initial, states, events, n);
    var s := states[n];
    assert CallerOk(s.slot, s.callers[i]) && CallerOk(s.slot, s.callers[j]);
    BackoffTotals(s.callers[i].sends - 1);
  }
}
