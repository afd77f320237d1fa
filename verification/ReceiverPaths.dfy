// Every receiver action, as one more step of a path already taken. A path is a sequence of
// states from a given one on; the witness runs and the receiver's methods extend it action by
// action, and each of these lemmas spares them the choice among all actions that a step of
// the protocol may be.

module ReceiverPaths {
  import opened Common
  import opened ResultRecord
  import opened ReceiverProtocol
  import Runs

  lemma RecoverCancellationOn(s0: State, s: State, k: Key, c: Value, o: Value, at: int, s': State)
    requires Reaches(s0, s) && RecoverCancellation(s, k, c, o, at, s')
    ensures Reaches(s0, s')
  { Runs.ReachesStep(Step, s0, s, s'); }

  lemma PublishRecoveredOn(s0: State, s: State, k: Key, s': State)
    requires Reaches(s0, s) && PublishRecovered(s, k, s')
    ensures Reaches(s0, s')
  { Runs.ReachesStep(Step, s0, s, s'); }

  lemma MarkPublishedOn(s0: State, s: State, k: Key, at: int, s': State)
    requires Reaches(s0, s) && MarkPublished(s, k, at, s')
    ensures Reaches(s0, s')
  { Runs.ReachesStep(Step, s0, s, s'); }

  lemma StartServingOn(s0: State, s: State, s': State)
    requires Reaches(s0, s) && StartServing(s, s')
    ensures Reaches(s0, s')
  { Runs.ReachesStep(Step, s0, s, s'); }

  lemma CrashOn(s0: State, s: State, s': State)
    requires Reaches(s0, s) && Crash(s, s')
    ensures Reaches(s0, s')
  { Runs.ReachesStep(Step, s0, s, s'); }

  lemma DeliverOn(s0: State, s: State, m: Message, s': State)
    requires Reaches(s0, s) && Deliver(s, m, s')
    ensures Reaches(s0, s')
  { Runs.ReachesStep(Step, s0, s, s'); }

  lemma FinishControlOn(s0: State, s: State, t: nat, s': State)
    requires Reaches(s0, s) && FinishControl(s, t, s')
    ensures Reaches(s0, s')
  { Runs.ReachesStep(Step, s0, s, s'); }

  lemma RaiseErrorOn(s0: State, s: State, t: nat, s': State)
    requires Reaches(s0, s) && RaiseError(s, t, s')
    ensures Reaches(s0, s')
  { Runs.ReachesStep(Step, s0, s, s'); }

  lemma HandleErrorOn(s0: State, s: State, t: nat, s': State)
    requires Reaches(s0, s) && HandleError(s, t, s')
    ensures Reaches(s0, s')
  { Runs.ReachesStep(Step, s0, s, s'); }

  lemma VerifyApprovalOn(s0: State, s: State, t: nat, s': State)
    requires Reaches(s0, s) && VerifyApproval(s, t, s')
    ensures Reaches(s0, s')
  { Runs.ReachesStep(Step, s0, s, s'); }

  lemma TakeLockOn(s0: State, s: State, t: nat, s': State)
    requires Reaches(s0, s) && TakeLock(s, t, s')
    ensures Reaches(s0, s')
  { Runs.ReachesStep(Step, s0, s, s'); }

  lemma ClaimOnceOn(s0: State, s: State, t: nat, s': State)
    requires Reaches(s0, s) && ClaimOnce(s, t, s')
    ensures Reaches(s0, s')
  { Runs.ReachesStep(Step, s0, s, s'); }

  lemma ReplayDecisionOn(s0: State, s: State, t: nat, p: int, q: int, s': State)
    requires Reaches(s0, s) && ReplayDecision(s, t, p, q, s')
    ensures Reaches(s0, s')
  { Runs.ReachesStep(Step, s0, s, s'); }

  lemma BlockRecoveryOn(s0: State, s: State, t: nat, s': State)
    requires Reaches(s0, s) && BlockRecovery(s, t, s')
    ensures Reaches(s0, s')
  { Runs.ReachesStep(Step, s0, s, s'); }

  lemma EnterExecutorOn(s0: State, s: State, t: nat, s': State)
    requires Reaches(s0, s) && EnterExecutor(s, t, s')
    ensures Reaches(s0, s')
  { Runs.ReachesStep(Step, s0, s, s'); }

  lemma RecordDecisionOn(s0: State, s: State, t: nat, p: int, q: int, s': State)
    requires Reaches(s0, s) && RecordDecision(s, t, p, q, s')
    ensures Reaches(s0, s')
  { Runs.ReachesStep(Step, s0, s, s'); }

  lemma VerifyDirectOn(s0: State, s: State, t: nat, s': State)
    requires Reaches(s0, s) && VerifyDirect(s, t, s')
    ensures Reaches(s0, s')
  { Runs.ReachesStep(Step, s0, s, s'); }

  lemma ReplayResultOn(s0: State, s: State, t: nat, c: Value, o: Value, n: nat, s': State)
    requires Reaches(s0, s) && ReplayResult(s, t, c, o, n, s')
    ensures Reaches(s0, s')
  { Runs.ReachesStep(Step, s0, s, s'); }

  lemma ReportUnknownOn(s0: State, s: State, t: nat, n: nat, s': State)
    requires Reaches(s0, s) && ReportUnknown(s, t, n, s')
    ensures Reaches(s0, s')
  { Runs.ReachesStep(Step, s0, s, s'); }

  lemma PassMarkerCheckOn(s0: State, s: State, t: nat, s': State)
    requires Reaches(s0, s) && PassMarkerCheck(s, t, s')
    ensures Reaches(s0, s')
  { Runs.ReachesStep(Step, s0, s, s'); }

  lemma RetryExecuteOn(s0: State, s: State, t: nat, s': State)
    requires Reaches(s0, s) && RetryExecute(s, t, s')
    ensures Reaches(s0, s')
  { Runs.ReachesStep(Step, s0, s, s'); }

  lemma DeclineOn(s0: State, s: State, t: nat, r: Record, n: nat, s': State)
    requires Reaches(s0, s) && Decline(s, t, r, n, s')
    ensures Reaches(s0, s')
  { Runs.ReachesStep(Step, s0, s, s'); }

  lemma BlockSubmissionOn(s0: State, s: State, t: nat, s': State)
    requires Reaches(s0, s) && BlockSubmission(s, t, s')
    ensures Reaches(s0, s')
  { Runs.ReachesStep(Step, s0, s, s'); }

  lemma WriteMarkerOn(s0: State, s: State, t: nat, at: int, s': State)
    requires Reaches(s0, s) && WriteMarker(s, t, at, s')
    ensures Reaches(s0, s')
  { Runs.ReachesStep(Step, s0, s, s'); }

  lemma SubmitOrderOn(s0: State, s: State, t: nat, s': State)
    requires Reaches(s0, s) && SubmitOrder(s, t, s')
    ensures Reaches(s0, s')
  { Runs.ReachesStep(Step, s0, s, s'); }

  lemma StoreResultOn(s0: State, s: State, t: nat, r: Record, n: nat, s': State)
    requires Reaches(s0, s) && StoreResult(s, t, r, n, s')
    ensures Reaches(s0, s')
  { Runs.ReachesStep(Step, s0, s, s'); }

  lemma FinishAcceptedOn(s0: State, s: State, t: nat, c: Value, o: Value, n: nat, s': State)
    requires Reaches(s0, s) && FinishAccepted(s, t, c, o, n, s')
    ensures Reaches(s0, s')
  { Runs.ReachesStep(Step, s0, s, s'); }

  lemma DecorateResultOn(s0: State, s: State, t: nat, q: int, s': State)
    requires Reaches(s0, s) && DecorateResult(s, t, q, s')
    ensures Reaches(s0, s')
  { Runs.ReachesStep(Step, s0, s, s'); }

  lemma PublishOn(s0: State, s: State, t: nat, reached: bool, returned: bool, s': State)
    requires Reaches(s0, s) && Publish(s, t, reached, returned, s')
    ensures Reaches(s0, s')
  { Runs.ReachesStep(Step, s0, s, s'); }

  lemma AckPublishedOn(s0: State, s: State, t: nat, s': State)
    requires Reaches(s0, s) && AckPublished(s, t, s')
    ensures Reaches(s0, s')
  { Runs.ReachesStep(Step, s0, s, s'); }

  lemma NackFailedOn(s0: State, s: State, t: nat, s': State)
    requires Reaches(s0, s) && NackFailed(s, t, s')
    ensures Reaches(s0, s')
  { Runs.ReachesStep(Step, s0, s, s'); }
}
