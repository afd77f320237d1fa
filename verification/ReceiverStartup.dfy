// What start-up recovery republishes: one record per marker, however often the process dies
// between publishing it and noting that. The published record stays the stored one until that
// is noted, because no thread runs before the subscription opens and the thread that created
// the marker is gone by then; the lemmas follow the groups of actions.

module ReceiverStartup {
  import opened Common
  import opened ResultRecord
  import opened ReceiverProtocol
  import opened ReceiverSafety
  import Runs
  import O = ReceiverOrigins
  import T = ReceiverTheorems

  ghost predicate Republished(s: State, k: Key, r: Record) {
    FromStartup(k, r) in s.history.published
  }

  // The published record is still the stored one until publishing it is noted, and no
  // thread is left that could store another.
  ghost predicate Kept(s: State, k: Key, r: Record) {
    && k in s.disk.results && !CancelPending(s.disk.results[k])
    && (PublishPending(s.disk.results[k]) ==> s.disk.results[k] == r)
    && forall t :: t in s.threads && HasMarker(s.threads[t].pc) && IsOrder(s.threads[t].message) ==> KeyOf(s, t) != k
  }

  ghost predicate Startups(s: State) {
    && (forall k, r :: Republished(s, k, r) ==> Kept(s, k, r))
    && (forall k, r, q :: Republished(s, k, r) && Republished(s, k, q) ==> r == q)
  }

  lemma OnlyKept(s: State, s': State)
    requires Startups(s)
    requires forall k, r :: Republished(s', k, r) ==> Republished(s, k, r) && Kept(s', k, r)
    ensures Startups(s')
  {}

  // Steps that store no result, republish nothing, and let no thread get a marker.
  ghost predicate LeavesResults(s: State, s': State) {
    && s'.cfg == s.cfg && s'.disk.results == s.disk.results
    && (forall k, r :: Republished(s', k, r) ==> Republished(s, k, r))
    && (forall t :: t in s'.threads && HasMarker(s'.threads[t].pc) ==>
          t in s.threads && HasMarker(s.threads[t].pc) && s'.threads[t].message == s.threads[t].message)
  }

  lemma LeavesStartups(s: State, s': State)
    requires Startups(s) && LeavesResults(s, s')
    ensures Startups(s')
  {
    forall k, r | Republished(s', k, r) ensures Republished(s, k, r) && Kept(s', k, r) {
      assert Republished(s, k, r) && Kept(s, k, r);
    }
    OnlyKept(s, s');
  }

  lemma ErrorLeaves(s: State, s': State)
    requires (exists t :: RaiseError(s, t, s')) || (exists t :: HandleError(s, t, s'))
    ensures LeavesResults(s, s') && s'.phase == Serving
  {
    if t: nat :| RaiseError(s, t, s') {} else if t: nat :| HandleError(s, t, s') {}
  }

  lemma ArrivalLeaves(s: State, s': State)
    requires ArrivalStep(s, s')
    ensures LeavesResults(s, s') && s'.phase == Serving
  {
    if m: Message :| Deliver(s, m, s') {} else if StopAccepting(s, s') {}
    else if slot: CacheSlot :| EvictPrepared(s, slot, s') {} else if t: nat :| FinishControl(s, t, s') {}
    else { ErrorLeaves(s, s'); }
  }

  lemma ClaimLeaves(s: State, s': State)
    requires (exists t :: VerifyApproval(s, t, s')) || (exists t :: TakeLock(s, t, s'))
             || (exists t :: ClaimOnce(s, t, s'))
    ensures LeavesResults(s, s') && s'.phase == Serving
  {
    if t: nat :| VerifyApproval(s, t, s') {} else if t: nat :| TakeLock(s, t, s') {}
    else if t: nat :| ClaimOnce(s, t, s') {}
  }

  lemma ReplayLeaves(s: State, s': State)
    requires (exists t, p, q :: ReplayDecision(s, t, p, q, s')) || (exists t, p, q :: RecordDecision(s, t, p, q, s'))
    ensures LeavesResults(s, s') && s'.phase == Serving
  {
    if t: nat, p: int, q: int :| ReplayDecision(s, t, p, q, s') {}
    else if t: nat, p: int, q: int :| RecordDecision(s, t, p, q, s') {}
  }

  lemma EntryLeaves(s: State, s': State)
    requires (exists t :: BlockRecovery(s, t, s')) || (exists t :: EnterExecutor(s, t, s'))
    ensures LeavesResults(s, s') && s'.phase == Serving
  {
    if t: nat :| BlockRecovery(s, t, s') {} else if t: nat :| EnterExecutor(s, t, s') {}
  }

  lemma DecisionLeaves(s: State, s': State)
    requires DecisionStep(s, s')
    ensures LeavesResults(s, s') && s'.phase == Serving
  {
    if t: nat :| VerifyApproval(s, t, s') { ClaimLeaves(s, s'); }
    else if t: nat :| TakeLock(s, t, s') { ClaimLeaves(s, s'); }
    else if t: nat :| ClaimOnce(s, t, s') { ClaimLeaves(s, s'); }
    else if t: nat, p: int, q: int :| ReplayDecision(s, t, p, q, s') { ReplayLeaves(s, s'); }
    else if t: nat :| BlockRecovery(s, t, s') { EntryLeaves(s, s'); }
    else if t: nat :| EnterExecutor(s, t, s') { EntryLeaves(s, s'); }
    else if t: nat, p: int, q: int :| RecordDecision(s, t, p, q, s') { ReplayLeaves(s, s'); }
  }

  lemma PublishLeaves(s: State, t: nat, reached: bool, returned: bool, s': State)
    requires Publish(s, t, reached, returned, s')
    ensures LeavesResults(s, s') && s'.phase == Serving
  {
    forall k, r | Republished(s', k, r) ensures Republished(s, k, r) {}
  }

  lemma PublicationLeaves(s: State, s': State)
    requires PublicationStep(s, s')
    ensures LeavesResults(s, s') && s'.phase == Serving
  {
    if t: nat, q: int :| DecorateResult(s, t, q, s') {}
    else if t: nat, reached: bool, returned: bool :| Publish(s, t, reached, returned, s') {
      PublishLeaves(s, t, reached, returned, s');
    } else if t: nat :| AckPublished(s, t, s') {} else if t: nat :| NackFailed(s, t, s') {}
  }

  lemma ReplayResultStartups(s: State, t: nat, c: Value, o: Value, n: nat, s': State)
    requires Startups(s) && ReplayResult(s, t, c, o, n, s')
    ensures Startups(s') && s'.phase == Serving
  {
    forall k, r | Republished(s', k, r) ensures Republished(s, k, r) && Kept(s', k, r) {
      assert Republished(s, k, r) && Kept(s, k, r);
    }
    OnlyKept(s, s');
  }

  lemma ChecksLeave(s: State, s': State)
    requires (exists t :: VerifyDirect(s, t, s')) || (exists t :: PassMarkerCheck(s, t, s'))
             || (exists t :: RetryExecute(s, t, s'))
    ensures LeavesResults(s, s') && s'.phase == Serving
  {
    if t: nat :| VerifyDirect(s, t, s') {} else if t: nat :| PassMarkerCheck(s, t, s') {}
    else if t: nat :| RetryExecute(s, t, s') {}
  }

  lemma ReportLeaves(s: State, t: nat, n: nat, s': State)
    requires ReportUnknown(s, t, n, s')
    ensures LeavesResults(s, s') && s'.phase == Serving
  {}

  lemma RefusalLeaves(s: State, s': State)
    requires (exists t, r, n :: Decline(s, t, r, n, s')) || (exists t :: BlockSubmission(s, t, s'))
    ensures LeavesResults(s, s') && s'.phase == Serving
  {
    if t: nat, r: Record, n: nat :| Decline(s, t, r, n, s') {}
    else if t: nat :| BlockSubmission(s, t, s') {}
  }

  lemma ExecutorStartups(s: State, s': State)
    requires Startups(s) && ExecutorStep(s, s')
    ensures Startups(s') && s'.phase == Serving
  {
    if t: nat, c: Value, o: Value, n: nat :| ReplayResult(s, t, c, o, n, s') {
      ReplayResultStartups(s, t, c, o, n, s');
    } else {
      if t: nat :| VerifyDirect(s, t, s') { ChecksLeave(s, s'); }
      else if t: nat, n: nat :| ReportUnknown(s, t, n, s') { ReportLeaves(s, t, n, s'); }
      else if t: nat :| PassMarkerCheck(s, t, s') { ChecksLeave(s, s'); }
      else if t: nat :| RetryExecute(s, t, s') { ChecksLeave(s, s'); }
      else if t: nat, r: Record, n: nat :| Decline(s, t, r, n, s') { RefusalLeaves(s, s'); }
      else if t: nat :| BlockSubmission(s, t, s') { RefusalLeaves(s, s'); }
      LeavesStartups(s, s');
    }
  }

  // A marker that is new has no result, so nothing was republished under it.
  lemma WriteMarkerStartups(s: State, t: nat, at: int, s': State)
    requires DiskOk(s) && Startups(s) && WriteMarker(s, t, at, s')
    ensures Startups(s') && s'.phase == Serving
  {
    forall k, r | Republished(s', k, r) ensures Republished(s, k, r) && Kept(s', k, r) {
      assert Republished(s, k, r) && Kept(s, k, r);
    }
    OnlyKept(s, s');
  }

  // The owner of a marker stores its result; nothing can have been republished under it.
  lemma OwnerStores(s: State, t: nat, r: Record, pc: Pc, s': State)
    requires Startups(s) && OrderAt(s, t) && HasMarker(s.threads[t].pc) && s' == Goto(StoreAt(s, KeyOf(s, t), r), t, pc)
    ensures Startups(s') && s'.phase == Serving
  {
    forall k, q | Republished(s', k, q) ensures Republished(s, k, q) && Kept(s', k, q) {
      assert Republished(s, k, q) && Kept(s, k, q);
    }
    OnlyKept(s, s');
  }

  lemma SubmissionStartups(s: State, s': State)
    requires DiskOk(s) && Startups(s) && SubmissionStep(s, s')
    ensures Startups(s') && s'.phase == Serving
  {
    if t: nat, at: int :| WriteMarker(s, t, at, s') {
      WriteMarkerStartups(s, t, at, s');
    } else if t: nat :| SubmitOrder(s, t, s') {
      LeavesStartups(s, s');
    } else if t: nat, r: Record, n: nat :| StoreResult(s, t, r, n, s') {
      OwnerStores(s, t, r, s'.threads[t].pc, s');
    } else if t: nat, c: Value, o: Value, n: nat :| FinishAccepted(s, t, c, o, n, s') {
      OwnerStores(s, t, s'.disk.results[KeyOf(s, t)], s'.threads[t].pc, s');
    }
  }

  lemma RecoverCancellationStartups(s: State, k: Key, c: Value, o: Value, at: int, s': State)
    requires Startups(s) && RecoverCancellation(s, k, c, o, at, s')
    ensures Startups(s')
  {
    forall i, r | Republished(s', i, r) ensures Republished(s, i, r) && Kept(s', i, r) {
      assert Republished(s, i, r) && Kept(s, i, r);
    }
    OnlyKept(s, s');
  }

  lemma PublishRecoveredStartups(s: State, k: Key, s': State)
    requires Startups(s) && s.threads == map[] && PublishRecovered(s, k, s')
    requires !CancelPending(s.disk.results[k])
    ensures Startups(s')
  {
    forall i, r | Republished(s', i, r) ensures Kept(s', i, r) {
      if i != k || r != s.disk.results[k] { assert Republished(s, i, r) && Kept(s, i, r); }
    }
    forall i, r, q | Republished(s', i, r) && Republished(s', i, q) ensures r == q {
      assert Republished(s, i, r) || (i == k && r == s.disk.results[k]);
      assert Republished(s, i, q) || (i == k && q == s.disk.results[k]);
      assert Republished(s, i, r) ==> Kept(s, i, r);
      assert Republished(s, i, q) ==> Kept(s, i, q);
    }
  }

  lemma MarkPublishedStartups(s: State, k: Key, at: int, s': State)
    requires Startups(s) && MarkPublished(s, k, at, s')
    ensures Startups(s')
  {
    assert Republished(s, k, s.disk.results[k]) && Kept(s, k, s.disk.results[k]);
    forall i, r | Republished(s', i, r) ensures Republished(s, i, r) && Kept(s', i, r) {
      assert Republished(s, i, r) && Kept(s, i, r);
    }
    OnlyKept(s, s');
  }

  // No thread runs before the subscription opens, and a result that waits to be
  // republished waits for no cancellation.
  ghost predicate Quiet(s: State) {
    && (s.phase == Booting ==> s.threads == map[])
    && forall k :: k in s.disk.results && PublishPending(s.disk.results[k]) ==> !CancelPending(s.disk.results[k])
  }

  lemma BootStartups(s: State, s': State)
    requires Startups(s) && Quiet(s) && BootStep(s, s')
    ensures Startups(s')
  {
    if k: Key, c: Value, o: Value, at: int :| RecoverCancellation(s, k, c, o, at, s') {
      RecoverCancellationStartups(s, k, c, o, at, s');
    } else if k: Key :| PublishRecovered(s, k, s') {
      PublishRecoveredStartups(s, k, s');
    } else if k: Key, at: int :| MarkPublished(s, k, at, s') {
      MarkPublishedStartups(s, k, at, s');
    } else {
      LeavesStartups(s, s');
    }
  }

  ghost predicate SafeAndQuiet(s: State) {
    Safe(s) && Startups(s) && Quiet(s)
  }

  lemma BootQuiet(s: State, s': State)
    requires Quiet(s) && BootStep(s, s') && RecordInv(s')
    ensures Quiet(s')
  {
    if k: Key, c: Value, o: Value, at: int :| RecoverCancellation(s, k, c, o, at, s') {}
    else if k: Key :| PublishRecovered(s, k, s') {}
    else if k: Key, at: int :| MarkPublished(s, k, at, s') {}
    else if StartServing(s, s') {} else if Crash(s, s') {}
  }

  lemma StepQuiet(s: State, s': State)
    requires SafeAndQuiet(s) && Step(s, s')
    ensures SafeAndQuiet(s')
  {
    T.StepSafe(s, s');
    if BootStep(s, s') { BootStartups(s, s'); BootQuiet(s, s'); }
    else if ArrivalStep(s, s') { ArrivalLeaves(s, s'); LeavesStartups(s, s'); }
    else if DecisionStep(s, s') { DecisionLeaves(s, s'); LeavesStartups(s, s'); }
    else if ExecutorStep(s, s') { ExecutorStartups(s, s'); }
    else if SubmissionStep(s, s') { SubmissionStartups(s, s'); }
    else { PublicationLeaves(s, s'); LeavesStartups(s, s'); }
  }

  lemma RunQuiet(run: seq<State>, i: nat)
    requires IsRun(run) && i < |run|
    ensures SafeAndQuiet(run[i])
  {
    T.InitSafe(run[0].cfg);
    forall s, s' | SafeAndQuiet(s) && Step(s, s') ensures SafeAndQuiet(s') { StepQuiet(s, s'); }
    Runs.KeptAlong(Step, SafeAndQuiet, run, 0, i);
  }

  // However often start-up recovery is cut short, what it republishes under one marker is
  // one and the same record, over all restarts.
  lemma StartupRepublishesOneRecord(run: seq<State>, i: nat, k: Key, r: Record, q: Record)
    requires IsRun(run) && i < |run|
    requires FromStartup(k, r) in run[i].history.published && FromStartup(k, q) in run[i].history.published
    ensures r == q
  {
    RunQuiet(run, i);
    assert Republished(run[i], k, r) && Republished(run[i], k, q);
  }

  // Markers are per order in a continuous session and one for all in a one-shot root; in
  // both that is one record per order.
  lemma StartupRepublishesOnePerOrder(run: seq<State>, i: nat, p: Publication, q: Publication, b: Binding)
    requires IsRun(run) && i < |run|
    requires p in run[i].history.published && q in run[i].history.published && p.FromStartup? && q.FromStartup?
    requires Names(p.record, b) && Names(q.record, b)
    ensures p == q
  {
    O.StartupResultsNameTheirOwner(run, i, p.key, p.record);
    O.StartupResultsNameTheirOwner(run, i, q.key, q.record);
    StartupRepublishesOneRecord(run, i, p.key, p.record, q.record);
  }
}
