/**
`put` and `put_if_absent` of the filesystem store. Any number of puts run at once, each a
temporary written chunk by chunk and then renamed or linked to its key. Opening, renaming and
linking run on the blocking pool and go on when the put that asked for them is dropped; a write is
handed to a background task and its error comes back with a later operation. Every step may fail,
every put may be dropped at every `await`, and a concurrent `delete_prefix` may remove any name.
*/
module FsPut {
  import opened Wrappers
  import opened Chunks

  datatype Result = Stored | Absent | Error | Cancelled

  datatype MoveResult = Done | Exists | Failed

  datatype Pc =
    | Resolving
    | Opening
    | Writing(handed: nat, pending: bool, failed: bool)
    | Synced
    | Moving
    | Moved(outcome: MoveResult)
    | Removing(result: Result)
    | Finished(result: Result)
      // The put is gone, and the pool has yet to run its open, drop its guard, or run its move.
    | LostOpen
    | LostGuard
    | LostMove

  /** One put: its key, whether it is conditional, the chunks of its body, and what has become of it. */
  datatype Put = Put(key: string, ifAbsent: bool, chunks: seq<Bytes>, pc: Pc, placed: bool, unlinkFailed: bool)

  /** What is under a key, and which put left it there. */
  datatype Object = Object(body: Bytes, author: Option<nat>)

  datatype State = State(objects: map<string, Object>, temps: map<nat, Bytes>, puts: seq<Put>)

  datatype Step =
    | Resolve(ok: bool)
    | OpenRuns(ok: bool)
    | BodyFails
    | HandChunk
    | Lands(ok: bool, length: nat)
    | Flush(ok: bool)
    | SendMove
    | MoveRuns(ok: bool)
    | SeeMove(synced: bool)
    | Unlink(works: bool)
    | Drop(works: bool)

  datatype Event =
    | Start(key: string, ifAbsent: bool, chunks: seq<Bytes>)
    | On(put: nat, step: Step)
    | DeleteTemp(temp: nat)
    | DeleteObject(key: string)

  predicate Can(s: State, p: nat, step: Step) {
    p < |s.puts| &&
    var put := s.puts[p];
    match step
    case Resolve(_) => put.pc.Resolving?
    case OpenRuns(_) => put.pc.Opening? || put.pc.LostOpen?
    case BodyFails => put.pc.Writing?
    case HandChunk => put.pc.Writing? && !put.pc.pending && put.pc.handed < |put.chunks|
    case Lands(ok, n) =>
      put.pc.Writing? && put.pc.pending && 0 < put.pc.handed <= |put.chunks| && n <= |put.chunks[put.pc.handed - 1]|
    case Flush(_) => put.pc.Writing? && !put.pc.pending && put.pc.handed == |put.chunks|
    case SendMove => put.pc.Synced?
    case MoveRuns(_) => put.pc.Moving? || put.pc.LostMove?
    case SeeMove(_) => put.pc.Moved?
    case Unlink(_) => put.pc.Removing? || put.pc.LostGuard?
    case Drop(_) =>
      put.pc.Resolving? || put.pc.Opening? || put.pc.Writing? || put.pc.Synced? || put.pc.Moving? || put.pc.Moved?
  }

  predicate Enabled(s: State, ev: Event) {
    ev.On? ==> Can(s, ev.put, ev.step)
  }

  function Goto(s: State, p: nat, pc: Pc): State
    requires p < |s.puts|
  {
    s.(puts := s.puts[p := s.puts[p].(pc := pc)])
  }

  /** The guard's unlink, its error ignored; the put goes on to `pc`. */
  function Remove(s: State, p: nat, works: bool, pc: Pc): State
    requires p < |s.puts|
  {
    s.(temps := if works then s.temps - {p} else s.temps,
       puts := s.puts[p := s.puts[p].(pc := pc, unlinkFailed := s.puts[p].unlinkFailed || !works)])
  }

  function DoResolve(s: State, p: nat, ok: bool): State
    requires p < |s.puts|
  {
    var put := s.puts[p];
    Goto(s, p, if !ok then Finished(Error)
               else if put.ifAbsent && put.key in s.objects then Finished(Absent)
               else Opening)
  }

  function DoOpen(s: State, p: nat, ok: bool): State
    requires p < |s.puts|
  {
    var lost := s.puts[p].pc.LostOpen?;
    if !ok then Goto(s, p, Finished(if lost then Cancelled else Error))
    else Goto(s, p, if lost then LostGuard else Writing(0, false, false)).(temps := s.temps[p := []])
  }

  function DoHand(s: State, p: nat): State
    requires Can(s, p, HandChunk)
  {
    var pc := s.puts[p].pc;
    Goto(s, p, if pc.failed then Removing(Error) else Writing(pc.handed + 1, true, false))
  }

  /** The background write of a chunk ends: all of it is in the file, or a part and an error to report. */
  function DoLand(s: State, p: nat, ok: bool, n: nat): State
    requires Can(s, p, Lands(ok, n))
  {
    var pc, chunk := s.puts[p].pc, s.puts[p].chunks[s.puts[p].pc.handed - 1];
    Goto(s, p, Writing(pc.handed, false, !ok)).(
      temps := if p in s.temps then s.temps[p := s.temps[p] + (if ok then chunk else chunk[..n])] else s.temps)
  }

  function DoFlush(s: State, p: nat, ok: bool): State
    requires Can(s, p, Flush(ok))
  {
    Goto(s, p, if s.puts[p].pc.failed || !ok then Removing(Error) else Synced)
  }

  function MoveOutcome(s: State, p: nat, ok: bool): MoveResult
    requires p < |s.puts|
  {
    if !ok || p !in s.temps then Failed
    else if s.puts[p].ifAbsent && s.puts[p].key in s.objects then Exists
    else Done
  }

  /** `rename` replaces what is at the key and takes the temporary's name away; `link` does neither. */
  function DoMove(s: State, p: nat, ok: bool): State
    requires p < |s.puts|
  {
    var put, outcome := s.puts[p], MoveOutcome(s, p, ok);
    var done := outcome.Done?;
    s.(objects := if done then s.objects[put.key := Object(s.temps[p], Some(p))] else s.objects,
       temps := if done && !put.ifAbsent then s.temps - {p} else s.temps,
       puts := s.puts[p := put.(pc := if put.pc.LostMove? then Finished(Cancelled) else Moved(outcome),
                                placed := put.placed || done)])
  }

  function AfterMove(put: Put, synced: bool): Pc
    requires put.pc.Moved?
  {
    match put.pc.outcome
    case Done =>
      var result := if synced then Stored else Error;
      if put.ifAbsent then Removing(result) else Finished(result)
    case Exists => Removing(Absent)
    case Failed => Removing(Error)
  }

  function DoDrop(s: State, p: nat, works: bool): State
    requires p < |s.puts|
  {
    match s.puts[p].pc
    case Resolving => Goto(s, p, Finished(Cancelled))
    case Opening => Goto(s, p, LostOpen)
    case Moving => Remove(s, p, works, LostMove)
    case _ => Remove(s, p, works, Finished(Cancelled))
  }

  function Do(s: State, p: nat, step: Step): State
    requires Can(s, p, step)
  {
    match step
    case Resolve(ok) => DoResolve(s, p, ok)
    case OpenRuns(ok) => DoOpen(s, p, ok)
    case BodyFails => Goto(s, p, Removing(Error))
    case HandChunk => DoHand(s, p)
    case Lands(ok, n) => DoLand(s, p, ok, n)
    case Flush(ok) => DoFlush(s, p, ok)
    case SendMove => Goto(s, p, Moving)
    case MoveRuns(ok) => DoMove(s, p, ok)
    case SeeMove(synced) => Goto(s, p, AfterMove(s.puts[p], synced))
    case Unlink(works) =>
      Remove(s, p, works, Finished(if s.puts[p].pc.LostGuard? then Cancelled else s.puts[p].pc.result))
    case Drop(works) => DoDrop(s, p, works)
  }

  function Apply(s: State, ev: Event): State
    requires Enabled(s, ev)
  {
    match ev
    case Start(key, ifAbsent, chunks) => s.(puts := s.puts + [Put(key, ifAbsent, chunks, Resolving, false, false)])
    case On(p, step) => Do(s, p, step)
    case DeleteTemp(p) => s.(temps := s.temps - {p})
    case DeleteObject(k) => s.(objects := s.objects - {k})
  }

  // ---- What every step keeps. ----

  ghost predicate Sane(put: Put) {
    && (put.pc.Writing? ==> put.pc.handed <= |put.chunks| && (put.pc.pending ==> put.pc.handed > 0 && !put.pc.failed))
    && (put.pc.Moved? && put.pc.outcome.Done? ==> put.placed)
    && ((put.pc.Removing? || put.pc.Finished?) && put.pc.result.Stored? ==> put.placed)
  }

  /** What is in the temporary of `put`, as far as its writes have landed without error. */
  ghost predicate Contains(put: Put, content: Bytes)
    requires Sane(put)
  {
    match put.pc
    case Writing(handed, pending, failed) =>
      !failed ==> content == Joined(put.chunks[..if pending then handed - 1 else handed])
    case Synced => content == Joined(put.chunks)
    case Moving => content == Joined(put.chunks)
    case LostMove => content == Joined(put.chunks)
    case _ => true
  }

  /** The put still has its temporary to see to. */
  predicate Minds(put: Put) {
    || put.pc.Writing? || put.pc.Synced? || put.pc.Moving? || put.pc.Removing? || put.pc.LostGuard?
    || (put.pc.Moved? && (put.ifAbsent || !put.pc.outcome.Done?))
  }

  ghost predicate PutOk(s: State, p: nat)
    requires p < |s.puts|
  {
    var put := s.puts[p];
    Sane(put) && (p in s.temps ==> Contains(put, s.temps[p]) && (Minds(put) || put.unlinkFailed))
  }

  /** An object left by a put is that put's whole body, under that put's key. */
  ghost predicate ObjectOk(s: State, initial: map<string, Object>, k: string)
    requires k in s.objects
  {
    var o := s.objects[k];
    match o.author
    case None => k in initial && initial[k] == o
    case Some(p) =>
      p < |s.puts| && s.puts[p].key == k && s.puts[p].placed && o.body == Joined(s.puts[p].chunks)
  }

  ghost predicate Inv(initial: map<string, Object>, s: State) {
    && (forall p :: 0 <= p < |s.puts| ==> PutOk(s, p))
    && (forall k :: k in s.objects ==> ObjectOk(s, initial, k))
    && (forall p :: p in s.temps ==> p < |s.puts|)
  }

  /** A step of put `p` is nobody else's business: only its own record, temporary and key change. */
  ghost predicate OnlyOwn(s: State, t: State, p: nat)
    requires p < |s.puts|
  {
    && |t.puts| == |s.puts| && t.puts == s.puts[p := t.puts[p]]
    && t.puts[p].key == s.puts[p].key && t.puts[p].chunks == s.puts[p].chunks
    && t.puts[p].ifAbsent == s.puts[p].ifAbsent
    && (s.puts[p].placed ==> t.puts[p].placed)
    && (forall q :: q in t.temps && q != p ==> q in s.temps && t.temps[q] == s.temps[q])
    && (t.objects == s.objects ||
        (p in s.temps && t.puts[p].placed && t.objects == s.objects[s.puts[p].key := Object(s.temps[p], Some(p))]
         && (s.puts[p].pc.Moving? || s.puts[p].pc.LostMove?) && (s.puts[p].ifAbsent ==> s.puts[p].key !in s.objects)))
  }

  lemma StepIsOwn(s: State, p: nat, step: Step)
    requires Can(s, p, step)
    ensures OnlyOwn(s, Do(s, p, step), p)
  {
  }

  lemma StepKeepsPut(s: State, p: nat, step: Step)
    requires Can(s, p, step) && PutOk(s, p)
    ensures |Do(s, p, step).puts| == |s.puts| && PutOk(Do(s, p, step), p)
  {
    if step.HandChunk? || step.Lands? || step.Flush? {
      WriteKeepsPut(s, p, step);
    } else {
      OtherKeepsPut(s, p, step);
    }
  }

  lemma WriteKeepsPut(s: State, p: nat, step: Step)
    requires Can(s, p, step) && PutOk(s, p) && (step.HandChunk? || step.Lands? || step.Flush?)
    ensures |Do(s, p, step).puts| == |s.puts| && PutOk(Do(s, p, step), p)
  {
    var put := s.puts[p];
    if put.pc.pending { JoinedGrows(put.chunks, put.pc.handed - 1); }
    assert put.chunks[..|put.chunks|] == put.chunks;
    hide Joined;
  }

  lemma OtherKeepsPut(s: State, p: nat, step: Step)
    requires Can(s, p, step) && PutOk(s, p) && !step.HandChunk? && !step.Lands? && !step.Flush?
    ensures |Do(s, p, step).puts| == |s.puts| && PutOk(Do(s, p, step), p)
  {
    if step.OpenRuns? { assert s.puts[p].chunks[..0] == []; }
    hide Joined;
  }

  lemma InvKept(initial: map<string, Object>, s: State, ev: Event)
    requires Inv(initial, s) && Enabled(s, ev)
    ensures Inv(initial, Apply(s, ev))
  {
    var t := Apply(s, ev);
    match ev
    case On(p, step) =>
      assert PutOk(s, p);
      StepIsOwn(s, p, step);
      StepKeepsPut(s, p, step);
      OwnTemp(s, p, step);
      hide Do, Can, Joined;
      forall q | 0 <= q < |t.puts| ensures PutOk(t, q) {
        if q != p { assert PutOk(s, q); }
      }
      forall k | k in t.objects ensures ObjectOk(t, initial, k) {
        if k in s.objects { assert ObjectOk(s, initial, k); }
      }
    case _ =>
      hide Joined;
      forall q | 0 <= q < |t.puts| ensures PutOk(t, q) {
        if q < |s.puts| { assert PutOk(s, q); }
      }
      forall k | k in t.objects ensures ObjectOk(t, initial, k) { assert ObjectOk(s, initial, k); }
  }

  lemma OwnTemp(s: State, p: nat, step: Step)
    requires Can(s, p, step)
    ensures forall q :: q in Do(s, p, step).temps ==> q in s.temps || q == p
  {
  }

  // ---- Whole runs. ----

  ghost predicate IsRun(initial: map<string, Object>, states: seq<State>, events: seq<Event>) {
    && |states| == |events| + 1 && states[0] == State(initial, map[], [])
    && (forall k :: k in initial ==> initial[k].author == None)
    && forall i :: 0 <= i < |events| ==> Enabled(states[i], events[i]) && states[i + 1] == Apply(states[i], events[i])
  }

  lemma {:induction false} EveryState(initial: map<string, Object>, states: seq<State>, events: seq<Event>, n: nat)
    requires IsRun(initial, states, events) && n < |states|
    ensures Inv(initial, states[n])
  {
    if n == 0 {
    } else {
      EveryState(initial, states, events, n - 1);
      hide Inv, Apply, Enabled;
      InvKept(initial, states[n - 1], events[n - 1]);
    }
  }

  /** Every key holds its initial object or, from first byte to last, the body of one put of that key. */
  lemma EveryObjectIsWhole(initial: map<string, Object>, states: seq<State>, events: seq<Event>, n: nat, k: string)
    requires IsRun(initial, states, events) && n < |states| && k in states[n].objects
    ensures var s := states[n];
            match s.objects[k].author
            case None => k in initial && s.objects[k] == initial[k]
            case Some(p) => p < |s.puts| && s.puts[p].key == k && s.objects[k].body == Joined(s.puts[p].chunks)
  {
    EveryState(initial, states, events, n);
    assert ObjectOk(states[n], initial, k);
  }

  /**
  No event leaves a key between two objects: what it holds afterwards is what it held before,
  nothing because of a delete, or the whole body of the put whose rename or link the event was,
  all of whose writes had landed and been flushed without error.
  */
  lemma NoPartialObject(initial: map<string, Object>, states: seq<State>, events: seq<Event>, n: nat, k: string)
    requires IsRun(initial, states, events) && n < |events|
    ensures var s, t, ev := states[n], states[n + 1], events[n];
            || ((k in s.objects <==> k in t.objects) && (k in s.objects ==> t.objects[k] == s.objects[k]))
            || (k !in t.objects && ev == DeleteObject(k))
            || (&& ev.On? && ev.step.MoveRuns? && ev.put < |s.puts| && s.puts[ev.put].key == k
                && (s.puts[ev.put].pc.Moving? || s.puts[ev.put].pc.LostMove?)
                && k in t.objects && t.objects[k] == Object(Joined(s.puts[ev.put].chunks), Some(ev.put)))
  {
    var s, ev := states[n], events[n];
    assert Enabled(s, ev) && states[n + 1] == Apply(s, ev);
    EveryState(initial, states, events, n);
    if ev.On? {
      StepIsOwn(s, ev.put, ev.step);
      assert PutOk(s, ev.put);
      if !ev.step.MoveRuns? { OnlyMovesPlace(s, ev.put, ev.step); }
      hide Do, Joined;
    }
  }

  lemma OnlyMovesPlace(s: State, p: nat, step: Step)
    requires Can(s, p, step) && !step.MoveRuns?
    ensures Do(s, p, step).objects == s.objects
  {
  }

  /** When every put has finished, a temporary is left only where removing it failed. */
  lemma NoTemporaryLeft(initial: map<string, Object>, states: seq<State>, events: seq<Event>, n: nat, p: nat)
    requires IsRun(initial, states, events) && n < |states| && p in states[n].temps
    ensures p < |states[n].puts|
    ensures states[n].puts[p].pc.Finished? ==> states[n].puts[p].unlinkFailed
  {
    EveryState(initial, states, events, n);
    assert PutOk(states[n], p);
  }

  /**
  What the pool was asked to do it does, whether or not the put still waits for it. A dropped
  rename or link has its whole effect unless the put's guard has removed the temporary, and then
  it has none; a dropped open makes its temporary, and the guard goes on to remove it.
  */
  lemma DroppedWorkGoesOn(s: State, p: nat, works: bool, ok: bool)
    requires Can(s, p, Drop(works)) && (s.puts[p].pc.Opening? || s.puts[p].pc.Moving?)
    ensures var t := Do(s, p, Drop(works));
            && (s.puts[p].pc.Moving? ==>
                  && Can(t, p, MoveRuns(ok))
                  && Do(t, p, MoveRuns(ok)).objects == if works then s.objects else Do(s, p, MoveRuns(ok)).objects)
            && (s.puts[p].pc.Opening? ==>
                  && t.temps == s.temps && Can(t, p, OpenRuns(ok))
                  && Do(t, p, OpenRuns(ok)).temps == Do(s, p, OpenRuns(ok)).temps
                  && (ok ==> Can(Do(t, p, OpenRuns(ok)), p, Unlink(true))))
  {
  }

  /** A put that reported success did put its whole body under its key. */
  lemma {:induction false} SuccessWasStored(
      initial: map<string, Object>, states: seq<State>, events: seq<Event>, n: nat, p: nat) returns (m: nat)
    requires IsRun(initial, states, events) && n < |states| && p < |states[n].puts|
    requires states[n].puts[p].pc == Finished(Stored) || states[n].puts[p].placed
    ensures m <= n && p < |states[n].puts| && states[n].puts[p].key in states[m].objects
    ensures states[m].objects[states[n].puts[p].key] == Object(Joined(states[n].puts[p].chunks), Some(p))
  {
    EveryState(initial, states, events, n);
    assert PutOk(states[n], p) && n > 0;
    var s, ev := states[n - 1], events[n - 1];
    assert Enabled(s, ev) && states[n] == Apply(s, ev);
    if p < |s.puts| && s.puts[p].placed {
      m := SuccessWasStored(initial, states, events, n - 1, p);
      SamePut(s, ev, p);
    } else {
      m := n;
      EveryState(initial, states, events, n - 1);
      assert ev.On? && ev.put == p;
      assert PutOk(s, p);
      NewlyPlaced(s, p, ev.step);
    }
  }

  lemma SamePut(s: State, ev: Event, p: nat)
    requires Enabled(s, ev) && p < |s.puts|
    ensures p < |Apply(s, ev).puts| && Apply(s, ev).puts[p].key == s.puts[p].key
    ensures Apply(s, ev).puts[p].chunks == s.puts[p].chunks
    ensures Apply(s, ev).puts[p].ifAbsent == s.puts[p].ifAbsent
  {
    if ev.On? {
      StepIsOwn(s, ev.put, ev.step);
      hide Do;
    }
  }

  lemma NewlyPlaced(s: State, p: nat, step: Step)
    requires Can(s, p, step) && PutOk(s, p) && !s.puts[p].placed
    ensures var t := Do(s, p, step);
            p < |t.puts| && t.puts[p].placed ==>
              t.puts[p].key in t.objects && t.objects[t.puts[p].key] == Object(Joined(t.puts[p].chunks), Some(p))
  {
    hide Joined;
  }

  // ---- Every put ends. ----

  /** Steps a put still has ahead of it, counted generously. */
  function Rank(put: Put): nat
    requires Sane(put)
  {
    match put.pc
    case Resolving => 2 * |put.chunks| + 20
    case Opening => 2 * |put.chunks| + 18
    case Writing(handed, pending, _) => 2 * (|put.chunks| - handed) + (if pending then 1 else 0) + 12
    case Synced => 11
    case Moving => 10
    case Moved(_) => 8
    case LostOpen => 7
    case LostMove => 6
    case Removing(_) => 5
    case LostGuard => 5
    case Finished(_) => 0
  }

  lemma RankDrops(s: State, p: nat, step: Step)
    requires Can(s, p, step) && PutOk(s, p)
    ensures var t := Do(s, p, step); |t.puts| == |s.puts| && Sane(t.puts[p]) && Rank(t.puts[p]) < Rank(s.puts[p])
  {
    StepKeepsPut(s, p, step);
    hide Joined, Contains, Do, Rank;
    if step.Drop? || step.Unlink? || step.SeeMove? || step.MoveRuns? {
      LastRanks(s, p, step);
    } else {
      FirstRanks(s, p, step);
    }
  }

  lemma LastRanks(s: State, p: nat, step: Step)
    requires Can(s, p, step) && Sane(s.puts[p]) && (step.Drop? || step.Unlink? || step.SeeMove? || step.MoveRuns?)
    ensures var t := Do(s, p, step); |t.puts| == |s.puts| && (Sane(t.puts[p]) ==> Rank(t.puts[p]) < Rank(s.puts[p]))
  {
  }

  lemma FirstRanks(s: State, p: nat, step: Step)
    requires Can(s, p, step) && Sane(s.puts[p]) && !step.Drop? && !step.Unlink? && !step.SeeMove? && !step.MoveRuns?
    ensures var t := Do(s, p, step); |t.puts| == |s.puts| && (Sane(t.puts[p]) ==> Rank(t.puts[p]) < Rank(s.puts[p]))
  {
  }

  /** Until a put has finished there is a step to take, whether its caller waits or is gone. */
  lemma SomethingToDo(s: State, p: nat) returns (step: Step)
    requires p < |s.puts| && PutOk(s, p) && !s.puts[p].pc.Finished?
    ensures Can(s, p, step) && !step.Drop?
  {
    match s.puts[p].pc
    case Resolving => step := Resolve(true);
    case Opening => step := OpenRuns(true);
    case LostOpen => step := OpenRuns(true);
    case Writing(handed, pending, _) =>
      step := if pending then Lands(false, 0) else if handed < |s.puts[p].chunks| then HandChunk else Flush(true);
    case Synced => step := SendMove;
    case Moving => step := MoveRuns(true);
    case LostMove => step := MoveRuns(true);
    case Moved(_) => step := SeeMove(true);
    case Removing(_) => step := Unlink(true);
    case LostGuard => step := Unlink(true);
  }

  ghost predicate AllSane(puts: seq<Put>) {
    forall i :: 0 <= i < |puts| ==> Sane(puts[i])
  }

  ghost function TotalRank(puts: seq<Put>): nat
    requires AllSane(puts)
  {
    if puts == [] then 0 else Rank(puts[0]) + TotalRank(puts[1..])
  }

  lemma {:induction false} OneRankDrops(puts: seq<Put>, i: nat, put: Put)
    requires AllSane(puts) && i < |puts| && Sane(put) && Rank(put) < Rank(puts[i])
    ensures AllSane(puts[i := put]) && TotalRank(puts[i := put]) < TotalRank(puts)
  {
    hide Sane, Rank;
    if i > 0 {
      OneRankDrops(puts[1..], i - 1, put);
      assert puts[i := put][1..] == puts[1..][i - 1 := put];
    } else {
      assert puts[i := put][1..] == puts[1..];
    }
  }

  /** Without new puts only a bounded number of put steps can follow before every put has finished. */
  lemma {:induction false} RunsEnd(initial: map<string, Object>, states: seq<State>, events: seq<Event>, m: nat, n: nat)
    requires IsRun(initial, states, events) && m <= n < |states| && forall i :: m <= i < n ==> events[i].On?
    ensures AllSane(states[m].puts) && AllSane(states[n].puts)
    ensures TotalRank(states[n].puts) + (n - m) <= TotalRank(states[m].puts)
  {
    hide Inv, Apply, Enabled, AllSane;
    EverySane(initial, states, events, m);
    EverySane(initial, states, events, n);
    if m == n {
    } else {
      RunsEnd(initial, states, events, m, n - 1);
      EveryState(initial, states, events, n - 1);
      assert events[n - 1].On?;
      StepIsPaid(initial, states[n - 1], events[n - 1]);
    }
  }

  lemma StepIsPaid(initial: map<string, Object>, s: State, ev: Event)
    requires Inv(initial, s) && Enabled(s, ev) && ev.On? && AllSane(s.puts)
    ensures AllSane(Apply(s, ev).puts) && TotalRank(Apply(s, ev).puts) < TotalRank(s.puts)
  {
    assert PutOk(s, ev.put);
    RankDrops(s, ev.put, ev.step);
    StepIsOwn(s, ev.put, ev.step);
    hide Do, Can, Rank, Sane, Inv, PutOk;
    OneRankDrops(s.puts, ev.put, Apply(s, ev).puts[ev.put]);
  }

  lemma EverySane(initial: map<string, Object>, states: seq<State>, events: seq<Event>, n: nat)
    requires IsRun(initial, states, events) && n < |states|
    ensures AllSane(states[n].puts)
  {
    EveryState(initial, states, events, n);
    forall i | 0 <= i < |states[n].puts| ensures Sane(states[n].puts[i]) { assert PutOk(states[n], i); }
  }
}
