// The direct path and the replay hash. A direct result is hashed with the creation time of its
// message and with the retries its own execution took, so a redelivered order that is answered
// from under its marker need not hash like the first answer. Once the stored result is settled
// it stays, whatever is delivered or interrupted, and the results published from then on hash
// alike exactly when those two fields agree; the lemmas follow the groups of actions.

module ReceiverDirect {
  import opened Common
  import opened ResultRecord
  import opened ReceiverProtocol
  import opened ReceiverSafety
  import Runs
  import T = ReceiverTheorems
  import U = ReceiverStartup

  // The hashed part of a direct result that does not depend on its delivery.
  function Core(r: Record): Record { Stable(r) - {PreAttemptRetryCount, EnvelopeCreatedAt} }

  // The stored result waits for no cancellation and no republication, and no thread is left
  // that could store another.
  ghost predicate SettledAs(s: State, k: Key, r: Record) {
    && k in s.disk.results && s.disk.results[k] == r && !CancelPending(r) && !PublishPending(r)
    && forall t :: t in s.threads && HasMarker(s.threads[t].pc) && IsOrder(s.threads[t].message) ==> KeyOf(s, t) != k
  }

  predicate Counted(r: Record, stored: Record) {
    Core(r) == Core(stored) && PreAttemptRetryCount in r
  }

  predicate Dated(m: Message, r: Record, stored: Record)
    requires m.Direct?
  {
    Counted(r, stored) && EnvelopeCreatedAt in r && r[EnvelopeCreatedAt] == Number(m.createdAt)
  }

  // A direct delivery under the marker k that has no record yet, and has not passed the check
  // for a marker, or has the stored one.
  ghost predicate OnTrack(s: State, t: nat, k: Key, r: Record)
    requires t in s.threads
  {
    var h := s.threads[t];
    h.message.Direct? && KeyOf(s, t) == k ==>
      match h.pc
      case Returned(_, record) => Counted(record, r)
      case Ready(record) => Dated(h.message, record, r)
      case pc => pc.Entered? || pc.Execute? || pc.ResultPublished? || pc.PublishFailed? || pc.Raised?
  }

  ghost predicate DirectUnder(s: State, p: Publication, k: Key) {
    && p.FromDelivery? && p.delivery < |s.history.deliveries| && s.history.deliveries[p.delivery].Direct?
    && AttemptKey(s.cfg, s.history.deliveries[p.delivery].binding) == k
  }

  ghost predicate Follows(s: State, k: Key, r: Record, base: set<Publication>, others: set<nat>) {
    && Safe(s) && SettledAs(s, k, r)
    && (forall t :: t in s.threads && t !in others ==> OnTrack(s, t, k, r))
    && (forall p :: p in s.history.published && p !in base && DirectUnder(s, p, k) && p.delivery !in others ==>
          Dated(s.history.deliveries[p.delivery], p.record, r))
  }

  // ----- What a step does to the deliveries on track

  // Each delivery on track stays on it, and what is published is its thread's record.
  ghost predicate Tracks(s: State, s': State, k: Key, r: Record) {
    && (forall t :: t in s'.threads && (t in s.threads ==> OnTrack(s, t, k, r)) ==> OnTrack(s', t, k, r))
    && forall p :: p in s'.history.published && p !in s.history.published && p.FromDelivery? ==>
         p.delivery in s.threads && s.threads[p.delivery].pc == Ready(p.record)
  }

  // No thread moves; some may be gone.
  ghost predicate OnlyLeaves(s: State, s': State) {
    && s'.cfg == s.cfg && s'.history.published == s.history.published
    && forall t :: t in s'.threads ==> t in s.threads && s'.threads[t] == s.threads[t]
  }

  lemma LeavingTracks(s: State, s': State, k: Key, r: Record)
    requires OnlyLeaves(s, s')
    ensures Tracks(s, s', k, r)
  {}

  lemma ErrorTracks(s: State, s': State, k: Key, r: Record)
    requires (exists t :: RaiseError(s, t, s')) || (exists t :: HandleError(s, t, s'))
    ensures Tracks(s, s', k, r)
  {
    if t: nat :| RaiseError(s, t, s') {} else if t: nat :| HandleError(s, t, s') { LeavingTracks(s, s', k, r); }
  }

  lemma DeliverTracks(s: State, m: Message, s': State, k: Key, r: Record)
    requires Deliver(s, m, s')
    ensures Tracks(s, s', k, r)
  {}

  lemma ArrivalTracks(s: State, s': State, k: Key, r: Record)
    requires ArrivalStep(s, s')
    ensures Tracks(s, s', k, r)
  {
    if m: Message :| Deliver(s, m, s') { DeliverTracks(s, m, s', k, r); }
    else if t: nat :| RaiseError(s, t, s') { ErrorTracks(s, s', k, r); }
    else if t: nat :| HandleError(s, t, s') { ErrorTracks(s, s', k, r); }
    else {
      assert OnlyLeaves(s, s');
      LeavingTracks(s, s', k, r);
    }
  }

  // The decision belongs to the approval path, which the direct deliveries take no part in.
  ghost predicate MovesApproval(s: State, s': State) {
    && s'.cfg == s.cfg && s'.threads.Keys == s.threads.Keys && s'.history.published == s.history.published
    && forall u :: u in s.threads ==>
         s'.threads[u].message == s.threads[u].message
         && (s.threads[u].message.Direct? ==> s'.threads[u] == s.threads[u])
  }

  lemma ClaimMoves(s: State, s': State)
    requires (exists t :: VerifyApproval(s, t, s')) || (exists t :: TakeLock(s, t, s'))
             || (exists t :: ClaimOnce(s, t, s'))
    ensures MovesApproval(s, s')
  {
    if t: nat :| VerifyApproval(s, t, s') {} else if t: nat :| TakeLock(s, t, s') {}
    else if t: nat :| ClaimOnce(s, t, s') {}
  }

  lemma RecordMoves(s: State, s': State)
    requires (exists t, p, q :: ReplayDecision(s, t, p, q, s')) || (exists t, p, q :: RecordDecision(s, t, p, q, s'))
    ensures MovesApproval(s, s')
  {
    if t: nat, p: int, q: int :| ReplayDecision(s, t, p, q, s') {}
    else if t: nat, p: int, q: int :| RecordDecision(s, t, p, q, s') {}
  }

  lemma EntryMoves(s: State, s': State)
    requires (exists t :: BlockRecovery(s, t, s')) || (exists t :: EnterExecutor(s, t, s'))
    ensures MovesApproval(s, s')
  {
    if t: nat :| BlockRecovery(s, t, s') {} else if t: nat :| EnterExecutor(s, t, s') {}
  }

  lemma DecisionMoves(s: State, s': State)
    requires DecisionStep(s, s')
    ensures MovesApproval(s, s')
  {
    if t: nat :| VerifyApproval(s, t, s') { ClaimMoves(s, s'); }
    else if t: nat :| TakeLock(s, t, s') { ClaimMoves(s, s'); }
    else if t: nat :| ClaimOnce(s, t, s') { ClaimMoves(s, s'); }
    else if t: nat, p: int, q: int :| ReplayDecision(s, t, p, q, s') { RecordMoves(s, s'); }
    else if t: nat :| BlockRecovery(s, t, s') { EntryMoves(s, s'); }
    else if t: nat :| EnterExecutor(s, t, s') { EntryMoves(s, s'); }
    else if t: nat, p: int, q: int :| RecordDecision(s, t, p, q, s') { RecordMoves(s, s'); }
  }

  lemma DecisionTracks(s: State, s': State, k: Key, r: Record)
    requires DecisionStep(s, s')
    ensures Tracks(s, s', k, r)
  {
    DecisionMoves(s, s');
  }

  lemma SealKeepsCore(m: Message, first: bool, r: Record, retries: nat)
    requires m.Direct?
    ensures Counted(Seal(m, first, r[ReplayedResult := Flag(true)], retries), r)
    ensures Counted(Seal(m, first, r, retries), r)
  {
    StableIgnoresVolatile(r, ReplayedResult, Flag(true));
    assert Core(Seal(m, first, r[ReplayedResult := Flag(true)], retries)) == Core(r);
    assert Core(Seal(m, first, r, retries)) == Core(r);
  }

  lemma DecorateKeepsCore(m: Message, r: Record, stored: Record, receivedAt: int)
    requires m.Direct? && Counted(r, stored)
    ensures Dated(m, DecorateDirect(r, m.createdAt, receivedAt), stored)
  {
    assert Core(DecorateDirect(r, m.createdAt, receivedAt)) == Core(r);
  }

  lemma ReplayTracks(s: State, t: nat, c: Value, o: Value, n: nat, s': State, k: Key, r: Record)
    requires SettledAs(s, k, r) && ReplayResult(s, t, c, o, n, s')
    ensures Tracks(s, s', k, r) && SettledAs(s', k, r)
  {
    var h := s.threads[t];
    if h.message.Direct? { SealKeepsCore(h.message, h.pc.first, s.disk.results[KeyOf(s, t)], n); }
  }

  lemma VerifyDirectTracks(s: State, t: nat, s': State, k: Key, r: Record)
    requires VerifyDirect(s, t, s')
    ensures Tracks(s, s', k, r)
  {}

  // With a stored result under it, a delivery on track does not get past the marker check.
  lemma CheckTracks(s: State, t: nat, s': State, k: Key, r: Record)
    requires Inv(s) && SettledAs(s, k, r) && PassMarkerCheck(s, t, s')
    ensures Tracks(s, s', k, r)
  {}

  lemma RetryTracks(s: State, t: nat, s': State, k: Key, r: Record)
    requires RetryExecute(s, t, s')
    ensures Tracks(s, s', k, r)
  {}

  lemma ReportTracks(s: State, t: nat, n: nat, s': State, k: Key, r: Record)
    requires SettledAs(s, k, r) && ReportUnknown(s, t, n, s')
    ensures Tracks(s, s', k, r)
  {}

  lemma RefusalTracks(s: State, s': State, k: Key, r: Record)
    requires (exists t, q, n :: Decline(s, t, q, n, s')) || (exists t :: BlockSubmission(s, t, s'))
    ensures Tracks(s, s', k, r)
  {
    if t: nat, q: Record, n: nat :| Decline(s, t, q, n, s') {} else if t: nat :| BlockSubmission(s, t, s') {}
  }

  lemma ExecutorTracks(s: State, s': State, k: Key, r: Record)
    requires Inv(s) && SettledAs(s, k, r) && ExecutorStep(s, s')
    ensures Tracks(s, s', k, r) && SettledAs(s', k, r)
  {
    if t: nat, c: Value, o: Value, n: nat :| ReplayResult(s, t, c, o, n, s') {
      ReplayTracks(s, t, c, o, n, s', k, r);
    } else {
      if t: nat :| VerifyDirect(s, t, s') { U.ChecksLeave(s, s'); VerifyDirectTracks(s, t, s', k, r); }
      else if t: nat, n: nat :| ReportUnknown(s, t, n, s') {
        U.ReportLeaves(s, t, n, s');
        ReportTracks(s, t, n, s', k, r);
      }
      else if t: nat :| PassMarkerCheck(s, t, s') { U.ChecksLeave(s, s'); CheckTracks(s, t, s', k, r); }
      else if t: nat :| RetryExecute(s, t, s') { U.ChecksLeave(s, s'); RetryTracks(s, t, s', k, r); }
      else if t: nat, q: Record, n: nat :| Decline(s, t, q, n, s') {
        U.RefusalLeaves(s, s');
        RefusalTracks(s, s', k, r);
      }
      else if t: nat :| BlockSubmission(s, t, s') { U.RefusalLeaves(s, s'); RefusalTracks(s, s', k, r); }
      LeftSettled(s, s', k, r);
    }
  }

  lemma WriteMarkerTracks(s: State, t: nat, at: int, s': State, k: Key, r: Record)
    requires Inv(s) && SettledAs(s, k, r) && WriteMarker(s, t, at, s')
    ensures Tracks(s, s', k, r) && SettledAs(s', k, r)
  {}

  lemma SubmitTracks(s: State, t: nat, s': State, k: Key, r: Record)
    requires SettledAs(s, k, r) && SubmitOrder(s, t, s')
    ensures Tracks(s, s', k, r) && SettledAs(s', k, r)
  {}

  // A thread past its marker is under another one than k.
  lemma OwnerTracks(s: State, t: nat, q: Record, pc: Pc, s': State, k: Key, r: Record)
    requires SettledAs(s, k, r) && OrderAt(s, t) && HasMarker(s.threads[t].pc)
    requires s' == Goto(StoreAt(s, KeyOf(s, t), q), t, pc)
    ensures Tracks(s, s', k, r) && SettledAs(s', k, r)
  {}

  // A delivery on track does not submit, and no other stores a result under the marker.
  lemma SubmissionTracks(s: State, s': State, k: Key, r: Record)
    requires Inv(s) && SettledAs(s, k, r) && SubmissionStep(s, s')
    ensures Tracks(s, s', k, r) && SettledAs(s', k, r)
  {
    if t: nat, at: int :| WriteMarker(s, t, at, s') { WriteMarkerTracks(s, t, at, s', k, r); }
    else if t: nat :| SubmitOrder(s, t, s') { SubmitTracks(s, t, s', k, r); }
    else if t: nat, q: Record, n: nat :| StoreResult(s, t, q, n, s') {
      OwnerTracks(s, t, q, s'.threads[t].pc, s', k, r);
    } else if t: nat, c: Value, o: Value, n: nat :| FinishAccepted(s, t, c, o, n, s') {
      OwnerTracks(s, t, s'.disk.results[KeyOf(s, t)], s'.threads[t].pc, s', k, r);
    }
  }

  lemma DecorateTracks(s: State, t: nat, q: int, s': State, k: Key, r: Record)
    requires DecorateResult(s, t, q, s')
    ensures Tracks(s, s', k, r)
  {
    var h := s.threads[t];
    if Counted(h.pc.record, r) { DecorateKeepsCore(h.message, h.pc.record, r, q); }
  }

  lemma PublishTracks(s: State, t: nat, reached: bool, returned: bool, s': State, k: Key, r: Record)
    requires Publish(s, t, reached, returned, s')
    ensures Tracks(s, s', k, r)
  {}

  lemma PublicationTracks(s: State, s': State, k: Key, r: Record)
    requires PublicationStep(s, s')
    ensures Tracks(s, s', k, r)
  {
    if t: nat, q: int :| DecorateResult(s, t, q, s') { DecorateTracks(s, t, q, s', k, r); }
    else if t: nat, reached: bool, returned: bool :| Publish(s, t, reached, returned, s') {
      PublishTracks(s, t, reached, returned, s', k, r);
    } else {
      assert OnlyLeaves(s, s');
      LeavingTracks(s, s', k, r);
    }
  }

  // A settled result is none that start-up recovery looks for.
  lemma RecoveryTracks(s: State, s': State, k: Key, r: Record)
    requires SettledAs(s, k, r)
    requires (exists i, c, o, at :: RecoverCancellation(s, i, c, o, at, s'))
             || (exists i, at :: MarkPublished(s, i, at, s'))
    ensures Tracks(s, s', k, r) && SettledAs(s', k, r)
  {
    if i: Key, c: Value, o: Value, at: int :| RecoverCancellation(s, i, c, o, at, s') {}
    else if i: Key, at: int :| MarkPublished(s, i, at, s') {}
  }

  lemma BootTracks(s: State, s': State, k: Key, r: Record)
    requires SettledAs(s, k, r) && BootStep(s, s')
    ensures Tracks(s, s', k, r) && SettledAs(s', k, r)
  {
    if i: Key, c: Value, o: Value, at: int :| RecoverCancellation(s, i, c, o, at, s') { RecoveryTracks(s, s', k, r); }
    else if i: Key, at: int :| MarkPublished(s, i, at, s') { RecoveryTracks(s, s', k, r); }
    else if i: Key :| PublishRecovered(s, i, s') {}
    else if StartServing(s, s') {} else if Crash(s, s') {}
  }

  lemma LeftSettled(s: State, s': State, k: Key, r: Record)
    requires SettledAs(s, k, r) && U.LeavesResults(s, s')
    ensures SettledAs(s', k, r)
  {}

  // A settled result stays, and each delivery on track stays on it.
  lemma StepTracks(s: State, s': State, k: Key, r: Record)
    requires Inv(s) && SettledAs(s, k, r) && Step(s, s')
    ensures Tracks(s, s', k, r) && SettledAs(s', k, r)
  {
    if BootStep(s, s') { BootTracks(s, s', k, r); }
    else if ArrivalStep(s, s') { U.ArrivalLeaves(s, s'); LeftSettled(s, s', k, r); ArrivalTracks(s, s', k, r); }
    else if DecisionStep(s, s') { U.DecisionLeaves(s, s'); LeftSettled(s, s', k, r); DecisionTracks(s, s', k, r); }
    else if ExecutorStep(s, s') { ExecutorTracks(s, s', k, r); }
    else if SubmissionStep(s, s') { SubmissionTracks(s, s', k, r); }
    else { U.PublicationLeaves(s, s'); LeftSettled(s, s', k, r); PublicationTracks(s, s', k, r); }
  }

  lemma StepFollows(s: State, s': State, k: Key, r: Record, base: set<Publication>, others: set<nat>)
    requires Follows(s, k, r, base, others) && Step(s, s')
    ensures Follows(s', k, r, base, others)
  {
    T.StepSafe(s, s');
    StepTracks(s, s', k, r);
    forall p | p in s'.history.published && p !in base && DirectUnder(s', p, k) && p.delivery !in others
      ensures Dated(s'.history.deliveries[p.delivery], p.record, r)
    {
      if p in s.history.published { assert PublicationOk(s, p) && DirectUnder(s, p, k); }
      else { assert ThreadOk(s, p.delivery, s.threads[p.delivery]) && OnTrack(s, p.delivery, k, r); }
    }
  }

  // ----- Over all runs

  // A settled result is final: redeliveries, later orders and restarts leave it as it is.
  lemma SettledResultIsFinal(run: seq<State>, i: nat, j: nat, k: Key, r: Record)
    requires IsRun(run) && i <= j < |run| && SettledAs(run[i], k, r)
    ensures SettledAs(run[j], k, r)
  {
    T.RunSafe(run, i);
    forall s, s' | Safe(s) && SettledAs(s, k, r) && Step(s, s') ensures Safe(s') && SettledAs(s', k, r) {
      T.StepSafe(s, s');
      StepTracks(s, s', k, r);
    }
    Runs.KeptAlong(Step, s => Safe(s) && SettledAs(s, k, r), run, i, j);
  }

  // p was published after run[i], for a direct order under the marker k, by a delivery that
  // in run[i] was still to come, or had no record of its own yet, or had the stored one.
  ghost predicate PublishedSince(run: seq<State>, i: nat, j: nat, p: Publication, k: Key, r: Record)
    requires i <= j < |run|
  {
    && p in run[j].history.published && p !in run[i].history.published && DirectUnder(run[j], p, k)
    && (p.delivery in run[i].threads ==> OnTrack(run[i], p.delivery, k, r))
  }

  // From when the result under a marker is settled, all direct results published under it
  // hash alike exactly when their messages were created at the same instant and their
  // executions took the same number of retries.
  lemma DirectResultsHashAlike(run: seq<State>, i: nat, j: nat, k: Key, r: Record, p: Publication, q: Publication)
    requires IsRun(run) && i <= j < |run| && SettledAs(run[i], k, r)
    requires PublishedSince(run, i, j, p, k, r) && PublishedSince(run, i, j, q, k, r)
    ensures PreAttemptRetryCount in p.record && PreAttemptRetryCount in q.record
    ensures Stable(p.record) == Stable(q.record)
       <==> && run[j].history.deliveries[p.delivery].createdAt == run[j].history.deliveries[q.delivery].createdAt
            && p.record[PreAttemptRetryCount] == q.record[PreAttemptRetryCount]
  {
    RunFollows(run, i, j, k, r, p);
    RunFollows(run, i, j, k, r, q);
    CoreAndCounts(p.record, q.record);
  }

  lemma RunFollows(run: seq<State>, i: nat, j: nat, k: Key, r: Record, p: Publication)
    requires IsRun(run) && i <= j < |run| && SettledAs(run[i], k, r) && PublishedSince(run, i, j, p, k, r)
    ensures Dated(run[j].history.deliveries[p.delivery], p.record, r)
  {
    T.RunSafe(run, i);
    var base := run[i].history.published;
    var others := set t | t in run[i].threads && !OnTrack(run[i], t, k, r);
    forall s, s' | Follows(s, k, r, base, others) && Step(s, s') ensures Follows(s', k, r, base, others) {
      StepFollows(s, s', k, r, base, others);
    }
    Runs.KeptAlong(Step, s => Follows(s, k, r, base, others), run, i, j);
  }

  lemma CoreAndCounts(r: Record, q: Record)
    requires Core(r) == Core(q)
    requires PreAttemptRetryCount in r && PreAttemptRetryCount in q && EnvelopeCreatedAt in r && EnvelopeCreatedAt in q
    ensures Stable(r) == Stable(q)
       <==> r[EnvelopeCreatedAt] == q[EnvelopeCreatedAt] && r[PreAttemptRetryCount] == q[PreAttemptRetryCount]
  {
    assert Stable(r)[EnvelopeCreatedAt] == r[EnvelopeCreatedAt] && Stable(q)[EnvelopeCreatedAt] == q[EnvelopeCreatedAt];
    assert Stable(r)[PreAttemptRetryCount] == r[PreAttemptRetryCount];
    assert Stable(q)[PreAttemptRetryCount] == q[PreAttemptRetryCount];
    if r[EnvelopeCreatedAt] == q[EnvelopeCreatedAt] && r[PreAttemptRetryCount] == q[PreAttemptRetryCount] {
      forall f | f in Stable(r) || f in Stable(q)
        ensures f in Stable(r) && f in Stable(q) && Stable(r)[f] == Stable(q)[f]
      {
        if f != PreAttemptRetryCount && f != EnvelopeCreatedAt { assert f in Core(r) <==> f in Core(q); }
      }
    }
  }

  // No thread but the one that created a marker is past it.
  lemma OnlyOwner(s: State, t: nat, s': State)
    requires Inv(s) && OrderAt(s, t) && HasMarker(s.threads[t].pc)
    requires s'.cfg == s.cfg && s'.threads.Keys == s.threads.Keys && t in s'.threads && !HasMarker(s'.threads[t].pc)
    requires forall u :: u in s.threads && u != t ==> s'.threads[u] == s.threads[u]
    requires s'.threads[t].message == s.threads[t].message
    ensures forall u :: u in s'.threads && HasMarker(s'.threads[u].pc) && IsOrder(s'.threads[u].message) ==>
              KeyOf(s', u) != KeyOf(s, t)
  {
    assert ThreadOk(s, t, s.threads[t]);
    forall u | u in s'.threads && HasMarker(s'.threads[u].pc) && IsOrder(s'.threads[u].message)
      ensures KeyOf(s', u) != KeyOf(s, t)
    {
      assert ThreadOk(s, u, s.threads[u]);
    }
  }

  // The step that ends an execution settles its result, with the delivery on track: from
  // there on its own answer is one of those compared.
  lemma ExecutionSettles(s: State, t: nat, s': State)
    requires Inv(s) && RecordInv(s')
    requires (exists r, n :: StoreResult(s, t, r, n, s') && !CancelPending(r))
             || (exists c, o, n :: FinishAccepted(s, t, c, o, n, s'))
    ensures KeyOf(s, t) in s'.disk.results
    ensures SettledAs(s', KeyOf(s, t), s'.disk.results[KeyOf(s, t)])
    ensures OnTrack(s', t, KeyOf(s, t), s'.disk.results[KeyOf(s, t)])
  {
    OnlyOwner(s, t, s');
    if r: Record, n: nat :| StoreResult(s, t, r, n, s') && !CancelPending(r) { ReturnsOnTrack(s, t, r, n, s'); }
    else if c: Value, o: Value, n: nat :| FinishAccepted(s, t, c, o, n, s') {
      ReturnsOnTrack(s, t, Settle(s.threads[t].pc.record, c, o), n, s');
    }
  }

  lemma ReturnsOnTrack(s: State, t: nat, r: Record, n: nat, s': State)
    requires OrderAt(s, t) && HasMarker(s.threads[t].pc) && !s.threads[t].pc.MarkerDurable?
    requires var h := s.threads[t];
             s' == Goto(StoreAt(s, KeyOf(s, t), r), t, Returned(h.pc.restored, Seal(h.message, h.pc.first, r, n)))
    ensures OnTrack(s', t, KeyOf(s, t), r) && s'.disk.results[KeyOf(s, t)] == r
  {
    var h := s.threads[t];
    if h.message.Direct? { SealKeepsCore(h.message, h.pc.first, r, n); }
  }
}
