// Which order a published result names, over all runs: its own, unless it was read from
// under a marker that another order left.

module ReceiverOrigins {
  import opened Common
  import opened ResultRecord
  import opened ReceiverProtocol
  import opened ReceiverSafety
  import opened ReceiverTracing
  import Runs
  import T = ReceiverTheorems

  ghost predicate SafeAndTraced(s: State) {
    Safe(s) && Origins(s)
  }

  lemma StepTraces(s: State, s': State)
    requires SafeAndTraced(s) && Step(s, s')
    ensures SafeAndTraced(s')
  {
    T.StepSafe(s, s');
    if BootStep(s, s') { BootStepTraces(s, s'); }
    else if ArrivalStep(s, s') { ArrivalStepTraces(s, s'); }
    else if DecisionStep(s, s') { DecisionStepTraces(s, s'); }
    else if ExecutorStep(s, s') { ExecutorStepTraces(s, s'); }
    else if SubmissionStep(s, s') { SubmissionStepTraces(s, s'); }
    else { PublicationStepTraces(s, s'); }
  }

  lemma RunTraced(run: seq<State>, i: nat)
    requires IsRun(run) && i < |run|
    ensures SafeAndTraced(run[i])
  {
    T.InitSafe(run[0].cfg);
    forall s, s' | SafeAndTraced(s) && Step(s, s') ensures SafeAndTraced(s') { StepTraces(s, s'); }
    Runs.KeptAlong(Step, SafeAndTraced, run, 0, i);
  }

  // Every marker, and every result under it, names the order whose delivery created it.
  lemma FilesNameTheirOwner(run: seq<State>, i: nat, k: Key)
    requires IsRun(run) && i < |run| && k in run[i].disk.attempts
    ensures Owned(run[i], k) && Names(run[i].disk.attempts[k], FiledOrder(run[i], k))
    ensures k in run[i].disk.results ==> Names(run[i].disk.results[k], FiledOrder(run[i], k))
  {
    RunTraced(run, i);
  }

  // The delivery that executed for delivery d: the one that recorded the decision, or d.
  ghost function Executed(s: State, d: nat): nat
    requires d < |s.history.deliveries|
  {
    var m := s.history.deliveries[d];
    if m.Approval? && IdOf(m) in s.trace.decider then s.trace.decider[IdOf(m)] else d
  }

  // A result published for a delivery names the order of that delivery, unless the
  // execution behind it read the record from under a marker that another order had left.
  lemma PublishedResultsNameTheirOrder(run: seq<State>, i: nat, p: Publication)
    requires IsRun(run) && i < |run| && p in run[i].history.published && p.FromDelivery?
    ensures p.delivery < |run[i].history.deliveries| && IsOrder(run[i].history.deliveries[p.delivery])
    ensures var s := run[i];
            var o := Executed(s, p.delivery);
            && HasSource(s, o) && s.history.deliveries[o].binding == s.history.deliveries[p.delivery].binding
            && Names(p.record, SourceOf(s, o))
            && (Names(p.record, s.history.deliveries[p.delivery].binding)
                <==> !FromMarker(s, o) || FiledOrder(s, KeyFor(s, o)) == s.history.deliveries[p.delivery].binding)
  {
    RunTraced(run, i);
    var s := run[i];
    assert PublicationTraced(s, p);
    var m := s.history.deliveries[p.delivery];
    if m.Approval? { assert DecisionOk(s, IdOf(m)); }
  }

  // In a continuous session the markers are per order, so it always does.
  lemma ContinuousResultsNameTheirOrder(run: seq<State>, i: nat, p: Publication)
    requires IsRun(run) && i < |run| && p in run[i].history.published && p.FromDelivery? && run[0].cfg.continuous
    ensures p.delivery < |run[i].history.deliveries| && IsOrder(run[i].history.deliveries[p.delivery])
    ensures Names(p.record, run[i].history.deliveries[p.delivery].binding)
  {
    PublishedResultsNameTheirOrder(run, i, p);
    T.RunGrows(run, 0, i);
    var o := Executed(run[i], p.delivery);
    if FromMarker(run[i], o) { assert Owned(run[i], KeyFor(run[i], o)); }
  }

  // A result republished at start-up names the order whose delivery created its marker.
  lemma StartupResultsNameTheirOwner(run: seq<State>, i: nat, k: Key, r: Record)
    requires IsRun(run) && i < |run| && FromStartup(k, r) in run[i].history.published
    ensures Owned(run[i], k) && Names(r, FiledOrder(run[i], k))
    ensures k == AttemptKey(run[0].cfg, FiledOrder(run[i], k))
  {
    RunTraced(run, i);
    T.RunGrows(run, 0, i);
    assert PublicationTraced(run[i], FromStartup(k, r));
  }
}
