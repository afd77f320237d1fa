// The source's guarantees over all runs.

module SourceTheorems {
  import opened Common
  import opened ResultRecord
  import opened SourceProtocol
  import opened SourceSafety
  import opened SourceSteps
  import Runs

  lemma StepKeeps(s: State, s': State)
    requires Step(s, s')
    ensures Grows(s, s')
    ensures Inv(s) ==> Inv(s')
  {
    if StartStep(s, s') { StartStepKeeps(s, s'); }
    else if CallbackStep(s, s') { CallbackStepKeeps(s, s'); }
    else { LoopStepKeeps(s, s'); }
  }

  lemma StepRaces(s: State, s': State)
    requires Inv(s) && Step(s, s')
    ensures WakeOk(s) && !InGap(s') ==> WakeOk(s')
    ensures NoneSkipped(s) && !InGap(s') ==> NoneSkipped(s')
    ensures NoneAstray(s) && !InGap(s') && !StrayRecorded(s, s') ==> NoneAstray(s')
  {
    if StartStep(s, s') { StartStepRaces(s, s'); }
    else if CallbackStep(s, s') { CallbackStepRaces(s, s'); }
    else { LoopStepRaces(s, s'); }
  }

  lemma InitInv(cfg: Config)
    ensures Inv(Init(cfg))
  {}

  lemma RunInv(run: seq<State>, i: nat)
    requires IsRun(run) && i < |run|
    ensures Inv(run[i])
  {
    InitInv(run[0].cfg);
    forall s, s' | Inv(s) && Step(s, s') ensures Inv(s') { StepKeeps(s, s'); }
    Runs.KeptAlong(Step, Inv, run, 0, i);
  }

  // ----- Publications and their results

  // In every state of every run, at most one published order lacks a result, apart from
  // those whose wait was given up; and that one is what the loop waits for.
  lemma AtMostOneUnresolved(run: seq<State>, i: nat)
    requires IsRun(run) && i < |run|
    ensures var open := Unresolved(run[i].disk) - run[i].skipped;
            && AtMostOne(open)
            && (open != {} && Subscribed(run[i].pc) ==>
                  (run[i].pc.Waiting? || run[i].pc.Cleared?) && run[i].awaited.Some? && open == {run[i].awaited.value})
  {
    RunInv(run, i);
  }

  // The wait for an order is given up exactly when it is reset before the result is there,
  // or when a start chooses to wait for another order.
  lemma SkippedExactly(run: seq<State>, i: nat, b: Binding)
    requires IsRun(run) && i < |run| - 1 && b !in run[i].skipped
    ensures b in run[i + 1].skipped <==>
              || (ResetState(run[i], run[i + 1]) && run[i].awaited == Some(b) && b !in run[i].disk.results)
              || (run[i].pc.Opening? && Open(run[i], run[i + 1].awaited, run[i + 1])
                  && b in Unresolved(run[i].disk) && run[i + 1].awaited != Some(b))
  {
    RunInv(run, i);
    assert Runs.StepAt(Step, run, i);
    var s, s' := run[i], run[i + 1];
    if !ResetState(s, s') && !(s.pc.Opening? && Open(s, s'.awaited, s')) { SkippedBy(s, s'); }
  }

  lemma SkippedBy(s: State, s': State)
    requires Step(s, s') && !ResetState(s, s') && !(s.pc.Opening? && Open(s, s'.awaited, s'))
    ensures s'.skipped == s.skipped
  {
    if StartStep(s, s') {} else if CallbackStep(s, s') {} else {}
  }

  // No states from m to i had the event set between its clear and the reset.
  ghost predicate NoGap(run: seq<State>, m: nat, i: nat)
    requires m <= i < |run|
  {
    forall j :: m <= j <= i ==> !InGap(run[j])
  }

  lemma {:induction false} AwakeFrom(run: seq<State>, m: nat, i: nat)
    requires IsRun(run) && m <= i < |run| && run[m].pc.Down? && NoGap(run, m, i)
    ensures WakeOk(run[i])
    decreases i - m
  {
    RunInv(run, m);
    if m < i {
      AwakeFrom(run, m, i - 1);
      RunInv(run, i - 1);
      assert Runs.StepAt(Step, run, i - 1);
      StepRaces(run[i - 1], run[i]);
    }
  }

  // So within one process a wait is cut short only after a duplicate fell into the gap:
  // without one, what is reset has its result, and the note the loop takes is that result's.
  lemma OnlyAGapCutsAWaitShort(run: seq<State>, m: nat, i: nat, s': State)
    requires IsRun(run) && m <= i < |run| && run[m].pc.Down? && NoGap(run, m, i) && ResetState(run[i], s')
    ensures run[i].awaited.Some? && NoteMatches(run[i], run[i].awaited.value)
    ensures s'.skipped == run[i].skipped && s'.astray == run[i].astray
  {
    RunInv(run, i);
    AwakeFrom(run, m, i);
  }

  lemma {:induction false} NoneSkippedFrom(run: seq<State>, m: nat, i: nat)
    requires IsRun(run) && m <= i < |run| && run[m].pc.Down? && AtMostOne(Unresolved(run[m].disk)) && NoGap(run, m, i)
    ensures NoneSkipped(run[i])
    decreases i - m
  {
    RunInv(run, m);
    if m < i {
      NoneSkippedFrom(run, m, i - 1);
      RunInv(run, i - 1);
      assert Runs.StepAt(Step, run, i - 1);
      StepRaces(run[i - 1], run[i]);
    }
  }

  // From any stopped state with at most one unresolved order on, whatever happened before:
  // over restarts without such a duplicate there never is a second one, and none at all
  // unless the loop waits for it.
  lemma OneUnresolvedFrom(run: seq<State>, m: nat, i: nat)
    requires IsRun(run) && m <= i < |run| && run[m].pc.Down? && AtMostOne(Unresolved(run[m].disk)) && NoGap(run, m, i)
    ensures AtMostOne(Unresolved(run[i].disk))
    ensures Subscribed(run[i].pc) && Unresolved(run[i].disk) != {} ==>
              run[i].pc.Waiting? && run[i].awaited.Some? && Unresolved(run[i].disk) == {run[i].awaited.value}
  {
    NoneSkippedFrom(run, m, i);
  }

  // A restart waits again exactly when a publication is unresolved, and for one of those;
  // any other is one whose wait was given up before.
  lemma RestartResumesTheWait(run: seq<State>, i: nat, b: Option<Binding>, s': State)
    requires IsRun(run) && i < |run| && Open(run[i], b, s')
    ensures s'.pc == if Unresolved(run[i].disk) == {} then Polling else Waiting
    ensures s'.pc.Waiting? ==> s'.awaited.Some? && s'.awaited.value in Unresolved(run[i].disk)
    ensures AtMostOne(Unresolved(run[i].disk) - run[i].skipped)
    ensures Unresolved(run[i].disk) !! run[i].skipped ==> Unresolved(run[i].disk) == if b.Some? then {b.value} else {}
  {
    RunInv(run, i);
    var all := Unresolved(run[i].disk);
    if all !! run[i].skipped { assert all == all - run[i].skipped; }
  }

  // ----- Recorded results and their settlement

  // Whenever an order is published, every recorded result that still needs settlement has
  // gone astray, and every publication without a result is one whose wait was given up.
  lemma NoPublishWhileUnsettled(run: seq<State>, i: nat, b: Binding, s': State)
    requires IsRun(run) && i < |run| && StartPublish(run[i], b, s')
    ensures Unsettled(run[i].disk) <= run[i].astray && Unresolved(run[i].disk) <= run[i].skipped
  {
    RunInv(run, i);
    EmptyDifference(Unsettled(run[i].disk), run[i].astray);
    EmptyDifference(Unresolved(run[i].disk), run[i].skipped);
  }

  lemma EmptyDifference(a: set<Binding>, b: set<Binding>)
    requires a - b == {}
    ensures a <= b
  {
    forall x | x in a ensures x in b { assert x !in a - b; }
  }

  // A result goes astray exactly when it needs settlement and the loop does not wait for its
  // order as it is recorded, or no longer knows of it at the reset, or a start leaves it.
  lemma AstrayExactly(run: seq<State>, i: nat, b: Binding)
    requires IsRun(run) && i < |run| - 1 && b !in run[i].astray
    ensures b in run[i + 1].astray <==>
              || (b !in run[i].disk.results && b in run[i + 1].disk.results && run[i + 1].disk.results[b].needs
                  && run[i].awaited != Some(b))
              || (ResetState(run[i], run[i + 1]) && run[i].note.None? && run[i].awaited == Some(b)
                  && b in Unsettled(run[i].disk))
              || (run[i].pc.Opening? && Open(run[i], run[i + 1].awaited, run[i + 1]) && b in Unsettled(run[i].disk))
  {
    assert Runs.StepAt(Step, run, i);
    var s, s' := run[i], run[i + 1];
    if !ResetState(s, s') && !(s.pc.Opening? && Open(s, s'.awaited, s')) { AstrayBy(s, s'); }
  }

  lemma AstrayBy(s: State, s': State)
    requires Step(s, s') && !ResetState(s, s') && !(s.pc.Opening? && Open(s, s'.awaited, s'))
    ensures s'.astray == s.astray + Strays(s, s')
  {
    if StartStep(s, s') { assert s'.astray == s.astray && s'.disk.results == s.disk.results; }
    else if CallbackStep(s, s') { AstrayByCallback(s, s'); }
    else { assert s'.astray == s.astray && s'.disk.results == s.disk.results; }
  }

  lemma AstrayByCallback(s: State, s': State)
    requires CallbackStep(s, s')
    ensures s'.astray == s.astray + Strays(s, s')
  {
    if t: nat, needs: bool :| RecordFirst(s, t, needs, s') {
      assert Strays(s, s') == if needs && s.awaited != Some(s.threads[t].binding) then {s.threads[t].binding} else {};
    } else {
      assert s'.disk.results == s.disk.results && s'.astray == s.astray;
    }
  }

  // The new results that need settlement and are not awaited.
  ghost function Strays(s: State, s': State): set<Binding> {
    set b | b in s'.disk.results && b !in s.disk.results && s'.disk.results[b].needs && s.awaited != Some(b)
  }

  // An order the loop does not wait for either has no receipt, because the process died
  // between publishing and writing it, or its wait was given up.
  lemma StrayResultsHaveNoReceipt(run: seq<State>, i: nat, t: nat, needs: bool, s': State)
    requires IsRun(run) && i < |run| && RecordFirst(run[i], t, needs, s')
    requires run[i].awaited != Some(run[i].threads[t].binding)
    ensures run[i].threads[t].binding in run[i].sent
    ensures run[i].threads[t].binding !in run[i].disk.receipts || run[i].threads[t].binding in run[i].skipped
  {
    RunInv(run, i);
    assert ThreadOk(run[i], t);
    var b, s := run[i].threads[t].binding, run[i];
    assert b in Unresolved(s.disk) - s.skipped <==> b in s.disk.receipts && b !in s.skipped;
  }

  ghost predicate NoRace(run: seq<State>, m: nat, i: nat)
    requires m <= i < |run|
  {
    NoGap(run, m, i) && forall j {:trigger Recorded(run, j)} :: m <= j < i ==> Recorded(run, j)
  }

  // The step from j records no result that goes astray.
  ghost predicate Recorded(run: seq<State>, j: nat)
    requires j < |run| - 1
  {
    !StrayRecorded(run[j], run[j + 1])
  }

  lemma {:induction false} NoneAstrayFrom(run: seq<State>, m: nat, i: nat)
    requires IsRun(run) && m <= i < |run| && NoRace(run, m, i) && run[m].pc.Down?
    requires AtMostOne(Unresolved(run[m].disk)) && AtMostOne(Unsettled(run[m].disk))
    ensures NoneAstray(run[i])
    decreases i - m
  {
    RunInv(run, m);
    if m < i {
      NoneAstrayFrom(run, m, i - 1);
      RunInv(run, i - 1);
      assert Runs.StepAt(Step, run, i - 1) && Recorded(run, i - 1);
      StepRaces(run[i - 1], run[i]);
    }
  }

  // From any stopped state with at most one unresolved and one unsettled order on, and
  // over restarts without either race, nothing is published while anything is pending.
  lemma PublishesOnlyWhenSettled(run: seq<State>, m: nat, i: nat, b: Binding, s': State)
    requires IsRun(run) && m <= i < |run| && NoRace(run, m, i) && run[m].pc.Down?
    requires AtMostOne(Unresolved(run[m].disk)) && AtMostOne(Unsettled(run[m].disk))
    requires StartPublish(run[i], b, s')
    ensures Unsettled(run[i].disk) == {} && Unresolved(run[i].disk) == {}
  {
    NoneAstrayFrom(run, m, i);
  }

  // ----- Results are recorded once

  // A result receipt never changes, whatever is redelivered.
  lemma ResultReceiptsAreFinal(run: seq<State>, i: nat, j: nat, b: Binding)
    requires IsRun(run) && i <= j < |run| && b in run[i].disk.results
    ensures b in run[j].disk.results && run[j].disk.results[b] == run[i].disk.results[b]
  {
    var results := run[i].disk.results;
    forall s, s' | Remembers(results, s) && Step(s, s') ensures Remembers(results, s') { StepKeeps(s, s'); }
    Runs.KeptAlong(Step, s => Remembers(results, s), run, i, j);
  }

  // ----- Latches

  ghost predicate LatchedWith(sent: set<Binding>, s: State) {
    s.disk.fault && s.pc.Down? && s.sent == sent
  }

  // After an integrity fault is durable, no later process publishes anything.
  lemma FaultStaysLatched(run: seq<State>, i: nat, j: nat)
    requires IsRun(run) && i <= j < |run| && run[i].disk.fault && run[i].pc.Down?
    ensures run[j].pc.Down? && run[j].sent == run[i].sent
  {
    var sent := run[i].sent;
    RunThreads(run, i);
    forall s, s' | NoThreads(s) && LatchedWith(sent, s) && Step(s, s') ensures NoThreads(s') && LatchedWith(sent, s') {
      StepKeeps(s, s');
      if StartStep(s, s') {} else if CallbackStep(s, s') {} else {}
    }
    Runs.KeptAlong(Step, s => NoThreads(s) && LatchedWith(sent, s), run, i, j);
  }

  lemma RunThreads(run: seq<State>, i: nat)
    requires IsRun(run) && i < |run|
    ensures NoThreads(run[i])
  {
    forall s, s' | NoThreads(s) && Step(s, s') ensures NoThreads(s') { StepKeeps(s, s'); }
    Runs.KeptAlong(Step, NoThreads, run, 0, i);
  }

  ghost predicate DoneWith(sent: set<Binding>, s: State) {
    OneShotDone(s) && (s.pc.Down? || (s.pc.BootSettling? && s.pc.thenExit)) && s.sent == sent && NoThreads(s)
  }

  lemma StepGrows(s: State, s': State)
    requires Step(s, s')
    ensures Grows(s, s') && (NoThreads(s) ==> NoThreads(s'))
  {
    StepKeeps(s, s');
  }

  lemma DoneStays(sent: set<Binding>, s: State, s': State)
    requires DoneWith(sent, s) && Step(s, s')
    ensures DoneWith(sent, s')
  {
    StepGrows(s, s');
    if StartStep(s, s') {} else if CallbackStep(s, s') {} else {}
  }

  // A one-shot source that starts after a consumed attempt settles and exits: it
  // never publishes again.
  lemma OneShotNeverRepublishes(run: seq<State>, i: nat, j: nat)
    requires IsRun(run) && i <= j < |run| && OneShotDone(run[i]) && run[i].pc.Down?
    ensures run[j].sent == run[i].sent && !Subscribed(run[j].pc)
  {
    var sent := run[i].sent;
    RunThreads(run, i);
    forall s, s' | DoneWith(sent, s) && Step(s, s') ensures DoneWith(sent, s') { DoneStays(sent, s, s'); }
    Runs.KeptAlong(Step, s => DoneWith(sent, s), run, i, j);
  }

  ghost predicate AwaitsItsEnd(sent: set<Binding>, s: State) {
    (s.pc.Waiting? || s.pc.Cleared?) && OneShotEnds(s) && s.sent == sent
  }

  lemma CallbackLeavesLoop(s: State, s': State)
    requires CallbackStep(s, s')
    ensures s'.cfg == s.cfg && s'.pc == s.pc && s'.awaited == s.awaited && s'.sent == s.sent
    ensures (exists t :: Notify(s, t, s')) || (s'.note == s.note && s'.event == s.event)
  {}

  lemma EndOnCallback(sent: set<Binding>, s: State, s': State)
    requires FilesOk(s) && AwaitsItsEnd(sent, s) && CallbackStep(s, s') && Remembers(s.disk.results, s')
    ensures AwaitsItsEnd(sent, s')
  {
    CallbackLeavesLoop(s, s');
    if t: nat :| Notify(s, t, s') { EndOnNotify(sent, s, t, s'); }
  }

  lemma EndOnNotify(sent: set<Binding>, s: State, t: nat, s': State)
    requires FilesOk(s) && AwaitsItsEnd(sent, s) && Notify(s, t, s')
    ensures AwaitsItsEnd(sent, s')
  {
    assert ThreadOk(s, t);
  }

  lemma EndOnReset(sent: set<Binding>, s: State, s': State)
    requires FilesOk(s) && ResolvedAt(s) && AwaitsItsEnd(sent, s) && (ResetState(s, s') || Stop(s, s'))
    ensures DoneWith(sent, s')
  {
    assert s.awaited.value in s'.disk.receipts && s.awaited.value in s'.disk.results;
  }

  ghost predicate EndingWith(sent: set<Binding>, s: State) {
    Inv(s) && (DoneWith(sent, s) || AwaitsItsEnd(sent, s))
  }

  lemma EndingStays(sent: set<Binding>, s: State, s': State)
    requires EndingWith(sent, s) && Step(s, s')
    ensures EndingWith(sent, s')
  {
    StepKeeps(s, s');
    if DoneWith(sent, s) { DoneStays(sent, s, s'); }
    else if CallbackStep(s, s') { EndOnCallback(sent, s, s'); }
    else { EndOnLoop(sent, s, s'); }
  }

  lemma EndOnLoop(sent: set<Binding>, s: State, s': State)
    requires FilesOk(s) && ResolvedAt(s) && AwaitsItsEnd(sent, s) && (StartStep(s, s') || LoopStep(s, s'))
    ensures DoneWith(sent, s') || AwaitsItsEnd(sent, s')
  {
    if ResetState(s, s') || Stop(s, s') { EndOnReset(sent, s, s'); }
    else { assert ClearEvent(s, s'); }
  }

  // So does one that waits for an order whose result is on file as a consumed attempt, and
  // for which no stale event is set: it ends without another publication, and every later
  // start exits.
  lemma OneShotEndsForGood(run: seq<State>, i: nat, j: nat)
    requires IsRun(run) && i <= j < |run| && OneShotEnds(run[i]) && (run[i].pc.Waiting? || run[i].pc.Cleared?)
    ensures run[j].sent == run[i].sent && !run[j].pc.Polling?
  {
    var sent := run[i].sent;
    RunInv(run, i);
    forall s, s' | EndingWith(sent, s) && Step(s, s') ensures EndingWith(sent, s') { EndingStays(sent, s, s'); }
    Runs.KeptAlong(Step, s => EndingWith(sent, s), run, i, j);
  }

  // The replay check compares five things, but the hash alone decides it.
  lemma SameResultIsSameHash(r: Record, needs: bool, other: Record)
    ensures SameResult(ReceiptOf(r, needs), other) <==> Stable(r) == Stable(other)
  {
    if Stable(r) == Stable(other) {
      forall f | f !in VOLATILE ensures (f in r <==> f in other) && (f in r ==> r[f] == other[f]) {
        assert f in r <==> f in Stable(r);
        assert f in other <==> f in Stable(other);
      }
    }
  }
}
