// The receiver's guarantees over all runs.

module ReceiverTheorems {
  import opened Common
  import opened ResultRecord
  import opened ReceiverProtocol
  import opened ReceiverSafety
  import opened ReceiverSteps
  import Runs

  // ----- Every step keeps every invariant

  lemma BootStepSafe(s: State, s': State)
    requires Safe(s) && BootStep(s, s')
    ensures Safe(s') && Grows(s, s') && AnswersGrow(s, s')
  {
    if k: Key, c: Value, o: Value, at: int :| RecoverCancellation(s, k, c, o, at, s') {
      RecoverCancellationKeeps(s, k, c, o, at, s'); RecoverCancellationRecords(s, k, c, o, at, s');
      AnswersNothingKeeps(s, s');
    } else if k: Key :| PublishRecovered(s, k, s') {
      PublishRecoveredKeeps(s, k, s'); PublishRecoveredRecords(s, k, s'); AnswersNothingKeeps(s, s');
    } else if k: Key, at: int :| MarkPublished(s, k, at, s') {
      MarkPublishedKeeps(s, k, at, s'); MarkPublishedRecords(s, k, at, s'); AnswersNothingKeeps(s, s');
    } else if StartServing(s, s') {
      StartServingKeeps(s, s'); StartServingRecords(s, s'); AnswersNothingKeeps(s, s');
    } else if Crash(s, s') {
      CrashKeeps(s, s'); CrashRecords(s, s'); CrashAnswers(s, s');
    }
  }

  lemma ArrivalStepSafe(s: State, s': State)
    requires Safe(s) && ArrivalStep(s, s')
    ensures Safe(s') && Grows(s, s') && AnswersGrow(s, s')
  {
    if m: Message :| Deliver(s, m, s') {
      DeliverKeeps(s, m, s'); DeliverRecords(s, m, s'); DeliverAnswers(s, m, s');
    } else if StopAccepting(s, s') {
      StopAcceptingKeeps(s, s'); StopAcceptingRecords(s, s'); AnswersNothingKeeps(s, s');
    } else if slot: CacheSlot :| EvictPrepared(s, slot, s') {
      EvictPreparedKeeps(s, slot, s'); EvictPreparedRecords(s, slot, s'); AnswersNothingKeeps(s, s');
    } else if t: nat :| FinishControl(s, t, s') {
      FinishControlKeeps(s, t, s'); FinishControlRecords(s, t, s'); DepartureKeeps(s, t, s');
    } else if t: nat :| RaiseError(s, t, s') {
      RaiseErrorKeeps(s, t, s'); RaiseErrorRecords(s, t, s'); AnswersNothingKeeps(s, s');
    } else if t: nat :| HandleError(s, t, s') {
      HandleErrorKeeps(s, t, s'); HandleErrorRecords(s, t, s'); DepartureKeeps(s, t, s');
    }
  }

  lemma DecisionStepSafe(s: State, s': State)
    requires Safe(s) && DecisionStep(s, s')
    ensures Safe(s') && Grows(s, s') && AnswersGrow(s, s')
  {
    if t: nat :| VerifyApproval(s, t, s') {
      VerifyApprovalKeeps(s, t, s'); VerifyApprovalRecords(s, t, s'); AnswersNothingKeeps(s, s');
    } else if t: nat :| TakeLock(s, t, s') {
      TakeLockKeeps(s, t, s'); TakeLockRecords(s, t, s'); AnswersNothingKeeps(s, s');
    } else if t: nat :| ClaimOnce(s, t, s') {
      ClaimOnceKeeps(s, t, s'); ClaimOnceRecords(s, t, s'); AnswersNothingKeeps(s, s');
    } else if t: nat, p: int, q: int :| ReplayDecision(s, t, p, q, s') {
      ReplayDecisionKeeps(s, t, p, q, s'); ReplayDecisionRecords(s, t, p, q, s'); AnswersNothingKeeps(s, s');
    } else if t: nat :| BlockRecovery(s, t, s') {
      BlockRecoveryKeeps(s, t, s'); BlockRecoveryRecords(s, t, s'); AnswersNothingKeeps(s, s');
    } else if t: nat :| EnterExecutor(s, t, s') {
      EnterExecutorKeeps(s, t, s'); EnterExecutorRecords(s, t, s'); AnswersNothingKeeps(s, s');
    } else if t: nat, p: int, q: int :| RecordDecision(s, t, p, q, s') {
      RecordDecisionKeeps(s, t, p, q, s'); RecordDecisionRecords(s, t, p, q, s'); AnswersNothingKeeps(s, s');
    }
  }

  lemma ExecutorStepSafe(s: State, s': State)
    requires Safe(s) && ExecutorStep(s, s')
    ensures Safe(s') && Grows(s, s') && AnswersGrow(s, s')
  {
    if t: nat :| VerifyDirect(s, t, s') {
      VerifyDirectKeeps(s, t, s'); VerifyDirectRecords(s, t, s'); AnswersNothingKeeps(s, s');
    } else if t: nat, c: Value, o: Value, n: nat :| ReplayResult(s, t, c, o, n, s') {
      ReplayResultKeeps(s, t, c, o, n, s'); ReplayResultRecords(s, t, c, o, n, s'); AnswersNothingKeeps(s, s');
    } else if t: nat, n: nat :| ReportUnknown(s, t, n, s') {
      ReportUnknownKeeps(s, t, n, s'); ReportUnknownRecords(s, t, n, s'); AnswersNothingKeeps(s, s');
    } else if t: nat :| PassMarkerCheck(s, t, s') {
      PassMarkerCheckKeeps(s, t, s'); PassMarkerCheckRecords(s, t, s'); AnswersNothingKeeps(s, s');
    } else if t: nat :| RetryExecute(s, t, s') {
      RetryExecuteKeeps(s, t, s'); RetryExecuteRecords(s, t, s'); AnswersNothingKeeps(s, s');
    } else if t: nat, r: Record, n: nat :| Decline(s, t, r, n, s') {
      DeclineKeeps(s, t, r, n, s'); DeclineRecords(s, t, r, n, s'); AnswersNothingKeeps(s, s');
    } else if t: nat :| BlockSubmission(s, t, s') {
      BlockSubmissionKeeps(s, t, s'); BlockSubmissionRecords(s, t, s'); AnswersNothingKeeps(s, s');
    }
  }

  lemma SubmissionStepSafe(s: State, s': State)
    requires Safe(s) && SubmissionStep(s, s')
    ensures Safe(s') && Grows(s, s') && AnswersGrow(s, s')
  {
    if t: nat, at: int :| WriteMarker(s, t, at, s') {
      WriteMarkerKeeps(s, t, at, s'); WriteMarkerRecords(s, t, at, s'); AnswersNothingKeeps(s, s');
    } else if t: nat :| SubmitOrder(s, t, s') {
      SubmitOrderKeeps(s, t, s'); SubmitOrderRecords(s, t, s'); AnswersNothingKeeps(s, s');
    } else if t: nat, r: Record, n: nat :| StoreResult(s, t, r, n, s') {
      StoreResultKeeps(s, t, r, n, s'); StoreResultRecords(s, t, r, n, s'); AnswersNothingKeeps(s, s');
    } else if t: nat, c: Value, o: Value, n: nat :| FinishAccepted(s, t, c, o, n, s') {
      FinishAcceptedKeeps(s, t, c, o, n, s'); FinishAcceptedRecords(s, t, c, o, n, s'); AnswersNothingKeeps(s, s');
    }
  }

  lemma PublicationStepSafe(s: State, s': State)
    requires Safe(s) && PublicationStep(s, s')
    ensures Safe(s') && Grows(s, s') && AnswersGrow(s, s')
  {
    if t: nat, q: int :| DecorateResult(s, t, q, s') {
      DecorateResultKeeps(s, t, q, s'); DecorateResultRecords(s, t, q, s'); AnswersNothingKeeps(s, s');
    } else if t: nat, reached: bool, returned: bool :| Publish(s, t, reached, returned, s') {
      PublishKeeps(s, t, reached, returned, s'); PublishRecords(s, t, reached, returned, s');
      PublishAnswers(s, t, reached, returned, s');
    } else if t: nat :| AckPublished(s, t, s') {
      AckPublishedKeeps(s, t, s'); AckPublishedRecords(s, t, s'); DepartureKeeps(s, t, s');
    } else if t: nat :| NackFailed(s, t, s') {
      NackFailedKeeps(s, t, s'); NackFailedRecords(s, t, s'); DepartureKeeps(s, t, s');
    }
  }

  lemma StepSafe(s: State, s': State)
    requires Safe(s) && Step(s, s')
    ensures Safe(s') && Grows(s, s') && AnswersGrow(s, s')
  {
    if BootStep(s, s') { BootStepSafe(s, s'); }
    else if ArrivalStep(s, s') { ArrivalStepSafe(s, s'); }
    else if DecisionStep(s, s') { DecisionStepSafe(s, s'); }
    else if ExecutorStep(s, s') { ExecutorStepSafe(s, s'); }
    else if SubmissionStep(s, s') { SubmissionStepSafe(s, s'); }
    else { PublicationStepSafe(s, s'); }
  }

  lemma InitSafe(cfg: Config)
    ensures Safe(Init(cfg))
  {}

  lemma RunSafe(run: seq<State>, i: nat)
    requires IsRun(run) && i < |run|
    ensures Safe(run[i])
  {
    InitSafe(run[0].cfg);
    forall s, s' | Safe(s) && Step(s, s') ensures Safe(s') { StepSafe(s, s'); }
    Runs.KeptAlong(Step, Safe, run, 0, i);
  }

  lemma RunStepGrows(run: seq<State>, i: nat)
    requires IsRun(run) && i < |run| - 1
    ensures Grows(run[i], run[i + 1]) && AnswersGrow(run[i], run[i + 1])
  {
    RunSafe(run, i);
    assert Runs.StepAt(Step, run, i);
    StepSafe(run[i], run[i + 1]);
  }

  lemma GrowsTransitive(a: State, b: State, c: State)
    requires Grows(a, b) && Grows(b, c) && AnswersGrow(a, b) && AnswersGrow(b, c)
    ensures Grows(a, c) && AnswersGrow(a, c)
  {}

  lemma {:induction false} RunGrows(run: seq<State>, i: nat, j: nat)
    requires IsRun(run) && i <= j < |run|
    ensures Grows(run[i], run[j]) && AnswersGrow(run[i], run[j])
    decreases j - i
  {
    if i < j {
      RunGrows(run, i, j - 1);
      RunStepGrows(run, j - 1);
      GrowsTransitive(run[i], run[j - 1], run[j]);
    }
  }

  // ----- At most once

  // The first execution starts at most once per approval identity, over all
  // deliveries, duplicates, crashes and restarts, and a result implies a claim.
  lemma FirstExecutionAtMostOnce(run: seq<State>, i: nat, id: ApprovalId)
    requires IsRun(run) && i < |run|
    ensures run[i].history.firstEntries[id] <= 1
    ensures run[i].history.firstEntries[id] == 1 ==> id in run[i].disk.claims
    ensures id in run[i].disk.decisions ==> id in run[i].disk.claims
  {
    RunSafe(run, i);
  }

  // Every entry into the executor is either that first one or a recovery guarded
  // by an attempt marker that is already durable.
  lemma EveryOtherEntryIsRecovery(run: seq<State>, i: nat, t: nat, s': State)
    requires IsRun(run) && i < |run| && EnterExecutor(run[i], t, s')
    ensures if run[i].threads[t].pc.won
            then run[i].history.firstEntries[ThreadId(run[i], t)] == 0
                 && s'.history.firstEntries[ThreadId(run[i], t)] == 1
            else KeyOf(run[i], t) in run[i].disk.attempts && s'.history.firstEntries == run[i].history.firstEntries
  {
    RunSafe(run, i);
    assert ThreadOk(run[i], t, run[i].threads[t]);
  }

  // A thread that entered the executor only to recover never submits.
  lemma RecoveryNeverSubmits(run: seq<State>, i: nat, t: nat, s': State)
    requires IsRun(run) && i < |run| && SubmitOrder(run[i], t, s')
    ensures run[i].threads[t].message.Approval? ==> run[i].threads[t].pc.first
    ensures KeyOf(run[i], t) in run[i].disk.attempts
    ensures run[i].history.submissions[KeyOf(run[i], t)] == 0
  {
    RunSafe(run, i);
    assert ThreadOk(run[i], t, run[i].threads[t]);
  }

  // At most one order reaches the exchange per attempt key, on either path.
  lemma SubmissionAtMostOnce(run: seq<State>, i: nat, k: Key)
    requires IsRun(run) && i < |run|
    ensures run[i].history.submissions[k] <= 1
    ensures run[i].history.submissions[k] == 1 ==> k in run[i].disk.attempts
  {
    RunSafe(run, i);
  }

  // A one-shot receiver submits at most one order in the whole life of its state root.
  lemma OneShotSubmitsOnce(run: seq<State>, i: nat)
    requires IsRun(run) && i < |run| && !run[0].cfg.continuous
    ensures |run[i].history.submissions| <= 1
  {
    RunSafe(run, i);
    RunGrows(run, 0, i);
    var m := run[i].history.submissions;
    assert forall k :: k in m ==> k == SharedKey;
    assert m == multiset{}[SharedKey := m[SharedKey]];
  }

  // ----- Decisions are final and durable before they are published

  lemma DecisionIsFinal(run: seq<State>, i: nat, j: nat, id: ApprovalId)
    requires IsRun(run) && i <= j < |run| && id in run[i].disk.decisions
    ensures id in run[j].disk.decisions && run[j].disk.decisions[id] == run[i].disk.decisions[id]
  {
    RunGrows(run, i, j);
  }

  lemma PublishedAfterDurable(run: seq<State>, i: nat, p: Publication)
    requires IsRun(run) && i < |run| && p in run[i].history.published && p.FromDelivery?
    ensures p.delivery < |run[i].history.deliveries|
    ensures var m := run[i].history.deliveries[p.delivery];
            m.Approval? ==> Mirrors(run[i], m, p.record)
  {
    RunSafe(run, i);
    assert PublicationOk(run[i], p);
  }

  // Two results published for one approval identity have the same replay hash
  // exactly when the approval messages carry the same creation time; in
  // particular every redelivery of one message hashes alike.
  lemma ApprovalResultsHashAlike(run: seq<State>, i: nat, p: Publication, q: Publication)
    requires IsRun(run) && i < |run| && p in run[i].history.published && q in run[i].history.published
    requires p.FromDelivery? && p.delivery < |run[i].history.deliveries|
    requires q.FromDelivery? && q.delivery < |run[i].history.deliveries|
    requires var m, n := run[i].history.deliveries[p.delivery], run[i].history.deliveries[q.delivery];
             m.Approval? && n.Approval? && IdOf(m) == IdOf(n)
    ensures Stable(p.record) == Stable(q.record)
       <==> run[i].history.deliveries[p.delivery].createdAt == run[i].history.deliveries[q.delivery].createdAt
  {
    PublishedAfterDurable(run, i, p);
    PublishedAfterDurable(run, i, q);
    var m, n := run[i].history.deliveries[p.delivery], run[i].history.deliveries[q.delivery];
    var d := Stable(run[i].disk.decisions[IdOf(m)]);
    assert d[ApprovalCreatedAt := Number(m.createdAt)][ApprovalCreatedAt] == Number(m.createdAt);
    assert d[ApprovalCreatedAt := Number(n.createdAt)][ApprovalCreatedAt] == Number(n.createdAt);
  }

  // A result republished by start-up recovery never hashes like a result
  // published for a delivery: the two differ in a field the hash does not ignore.
  lemma StartupNeverHashesLikeDelivery(run: seq<State>, i: nat, p: Publication, q: Publication)
    requires IsRun(run) && i < |run| && p in run[i].history.published && q in run[i].history.published
    requires p.FromStartup? && q.FromDelivery?
    ensures Stable(p.record) != Stable(q.record)
  {
    RunSafe(run, i);
    assert PublicationOk(run[i], p) && PublicationOk(run[i], q);
    assert RecoveryPublishPending in Stable(p.record) && Stable(p.record)[RecoveryPublishPending] == Flag(true);
  }

  // What the source may rely on: accepted means consumed, and a continuous
  // session answers an approval with a result for that very order.
  lemma PublishedResultsAreSound(run: seq<State>, i: nat, p: Publication)
    requires IsRun(run) && i < |run| && p in run[i].history.published
    ensures Honest(p.record)
    ensures p.FromDelivery? && run[0].cfg.continuous ==>
              && p.delivery < |run[i].history.deliveries| && IsOrder(run[i].history.deliveries[p.delivery])
              && Names(p.record, run[i].history.deliveries[p.delivery].binding)
  {
    RunSafe(run, i);
    RunGrows(run, 0, i);
    assert PublicationOk(run[i], p);
  }

  // ----- Acknowledgement

  // Each delivery is in flight, was lost with a process, or got one ack or nack.
  lemma EveryDeliveryAnsweredOnce(run: seq<State>, i: nat, d: nat)
    requires IsRun(run) && i < |run| && d < |run[i].history.deliveries|
    ensures var h := run[i].history;
            h.acks[d] + h.nacks[d] == if d in run[i].threads || d in h.lost then 0 else 1
    ensures !(d in run[i].threads && d in run[i].history.lost)
  {
    RunSafe(run, i);
    assert DeliveryOk(run[i], d);
  }

  // A delivery, of an approval or of a direct order, that reached the execute step while
  // a marker exists is acked only after its result publish returned.
  lemma AttemptAckedAfterPublish(run: seq<State>, i: nat, d: nat)
    requires IsRun(run) && i < |run| && d in run[i].history.attemptedAcks
    ensures d in run[i].trace.returned
    ensures exists p :: p in run[i].history.published && p.FromDelivery? && p.delivery == d
  {
    RunSafe(run, i);
  }

  // A callback that ends in an error is nacked if its order was verified and the marker
  // exists, and acked if not; either answer is the only one the delivery ever gets.
  lemma AttemptErrorsAreNacked(run: seq<State>, i: nat, t: nat, j: nat)
    requires IsRun(run) && i < j < |run| && HandleError(run[i], t, run[i + 1])
    ensures run[j].history.nacks[t] == (if Attempted(run[i], t) then 1 else 0)
    ensures run[j].history.acks[t] == (if Attempted(run[i], t) then 0 else 1)
  {
    RunSafe(run, i);
    assert ThreadOk(run[i], t, run[i].threads[t]) && DeliveryOk(run[i], t);
    RunGrows(run, i + 1, j);
    EveryDeliveryAnsweredOnce(run, j, t);
    EveryDeliveryAnsweredOnce(run, i + 1, t);
    var h, h' := run[i + 1].history, run[j].history;
    assert h.acks[t] <= h'.acks[t] && h.nacks[t] <= h'.nacks[t];
  }
}
