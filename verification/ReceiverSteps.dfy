// One lemma per receiver action and invariant: what the action keeps. Each lemma takes one
// action alone, because the invariants range over all threads, files and publications at
// once; ReceiverTheorems only picks the lemma of the action that a step is. First claims,
// markers and submissions, then records, then the answers given to deliveries.

module ReceiverSteps {
  import opened Common
  import opened ResultRecord
  import opened ReceiverProtocol
  import opened ReceiverSafety

  // ----- Every action keeps the at-most-once invariant

  lemma RecoverCancellationKeeps(s: State, k: Key, c: Value, o: Value, at: int, s': State)
    requires Inv(s) && RecoverCancellation(s, k, c, o, at, s')
    ensures Inv(s') && Grows(s, s') && AnswersNothing(s, s')
  {}

  lemma PublishRecoveredKeeps(s: State, k: Key, s': State)
    requires Inv(s) && PublishRecovered(s, k, s')
    ensures Inv(s') && Grows(s, s') && AnswersNothing(s, s')
  {}

  lemma MarkPublishedKeeps(s: State, k: Key, at: int, s': State)
    requires Inv(s) && MarkPublished(s, k, at, s')
    ensures Inv(s') && Grows(s, s') && AnswersNothing(s, s')
  {}

  lemma StartServingKeeps(s: State, s': State)
    requires Inv(s) && StartServing(s, s')
    ensures Inv(s') && Grows(s, s') && AnswersNothing(s, s')
  {}

  lemma CrashKeeps(s: State, s': State)
    requires Inv(s) && Crash(s, s')
    ensures Inv(s') && Grows(s, s')
  {}

  lemma DeliverKeeps(s: State, m: Message, s': State)
    requires Inv(s) && Deliver(s, m, s')
    ensures Inv(s') && Grows(s, s')
  {}

  lemma StopAcceptingKeeps(s: State, s': State)
    requires Inv(s) && StopAccepting(s, s')
    ensures Inv(s') && Grows(s, s') && AnswersNothing(s, s')
  {}

  lemma EvictPreparedKeeps(s: State, slot: CacheSlot, s': State)
    requires Inv(s) && EvictPrepared(s, slot, s')
    ensures Inv(s') && Grows(s, s') && AnswersNothing(s, s')
  {}

  lemma FinishControlKeeps(s: State, t: nat, s': State)
    requires Inv(s) && FinishControl(s, t, s')
    ensures Inv(s') && Grows(s, s')
  {}

  lemma RaiseErrorKeeps(s: State, t: nat, s': State)
    requires Inv(s) && RaiseError(s, t, s')
    ensures Inv(s') && Grows(s, s') && AnswersNothing(s, s')
  {
    forall u | u in s'.threads ensures ThreadOk(s', u, s'.threads[u]) {
      assert ThreadOk(s, u, s.threads[u]);
    }
  }

  lemma HandleErrorKeeps(s: State, t: nat, s': State)
    requires Inv(s) && HandleError(s, t, s')
    ensures Inv(s') && Grows(s, s')
  {}

  lemma VerifyApprovalKeeps(s: State, t: nat, s': State)
    requires Inv(s) && VerifyApproval(s, t, s')
    ensures Inv(s') && Grows(s, s') && AnswersNothing(s, s')
  {}

  lemma TakeLockKeeps(s: State, t: nat, s': State)
    requires Inv(s) && TakeLock(s, t, s')
    ensures Inv(s') && Grows(s, s') && AnswersNothing(s, s')
  {}

  lemma ClaimOnceKeeps(s: State, t: nat, s': State)
    requires Inv(s) && ClaimOnce(s, t, s')
    ensures Inv(s') && Grows(s, s') && AnswersNothing(s, s')
  {}

  lemma ReplayDecisionKeeps(s: State, t: nat, p: int, q: int, s': State)
    requires Inv(s) && ReplayDecision(s, t, p, q, s')
    ensures Inv(s') && Grows(s, s') && AnswersNothing(s, s')
  {}

  lemma BlockRecoveryKeeps(s: State, t: nat, s': State)
    requires Inv(s) && BlockRecovery(s, t, s')
    ensures Inv(s') && Grows(s, s') && AnswersNothing(s, s')
  {}

  lemma EnterExecutorKeeps(s: State, t: nat, s': State)
    requires Inv(s) && EnterExecutor(s, t, s')
    ensures Inv(s') && Grows(s, s') && AnswersNothing(s, s')
  {}

  lemma RecordDecisionKeeps(s: State, t: nat, p: int, q: int, s': State)
    requires Inv(s) && RecordDecision(s, t, p, q, s')
    ensures Inv(s') && Grows(s, s') && AnswersNothing(s, s')
  {}

  lemma VerifyDirectKeeps(s: State, t: nat, s': State)
    requires Inv(s) && VerifyDirect(s, t, s')
    ensures Inv(s') && Grows(s, s') && AnswersNothing(s, s')
  {}

  lemma ReplayResultKeeps(s: State, t: nat, c: Value, o: Value, n: nat, s': State)
    requires Inv(s) && ReplayResult(s, t, c, o, n, s')
    ensures Inv(s') && Grows(s, s') && AnswersNothing(s, s')
  {}

  lemma ReportUnknownKeeps(s: State, t: nat, n: nat, s': State)
    requires Inv(s) && ReportUnknown(s, t, n, s')
    ensures Inv(s') && Grows(s, s') && AnswersNothing(s, s')
  {}

  lemma PassMarkerCheckKeeps(s: State, t: nat, s': State)
    requires Inv(s) && PassMarkerCheck(s, t, s')
    ensures Inv(s') && Grows(s, s') && AnswersNothing(s, s')
  {}

  lemma RetryExecuteKeeps(s: State, t: nat, s': State)
    requires Inv(s) && RetryExecute(s, t, s')
    ensures Inv(s') && Grows(s, s') && AnswersNothing(s, s')
  {}

  lemma DeclineKeeps(s: State, t: nat, r: Record, n: nat, s': State)
    requires Inv(s) && Decline(s, t, r, n, s')
    ensures Inv(s') && Grows(s, s') && AnswersNothing(s, s')
  {}

  lemma BlockSubmissionKeeps(s: State, t: nat, s': State)
    requires Inv(s) && BlockSubmission(s, t, s')
    ensures Inv(s') && Grows(s, s') && AnswersNothing(s, s')
  {}

  lemma WriteMarkerKeeps(s: State, t: nat, at: int, s': State)
    requires Inv(s) && WriteMarker(s, t, at, s')
    ensures Inv(s') && Grows(s, s') && AnswersNothing(s, s')
  {
    forall u | u in s'.threads ensures ThreadOk(s', u, s'.threads[u]) { assert ThreadOk(s, u, s.threads[u]); }
  }

  lemma SubmitOrderKeeps(s: State, t: nat, s': State)
    requires Inv(s) && SubmitOrder(s, t, s')
    ensures Inv(s') && Grows(s, s') && AnswersNothing(s, s')
  {}

  lemma StoreResultKeeps(s: State, t: nat, r: Record, n: nat, s': State)
    requires Inv(s) && StoreResult(s, t, r, n, s')
    ensures Inv(s') && Grows(s, s') && AnswersNothing(s, s')
  {}

  lemma FinishAcceptedKeeps(s: State, t: nat, c: Value, o: Value, n: nat, s': State)
    requires Inv(s) && FinishAccepted(s, t, c, o, n, s')
    ensures Inv(s') && Grows(s, s') && AnswersNothing(s, s')
  {}

  lemma DecorateResultKeeps(s: State, t: nat, q: int, s': State)
    requires Inv(s) && DecorateResult(s, t, q, s')
    ensures Inv(s') && Grows(s, s') && AnswersNothing(s, s')
  {}

  lemma PublishKeeps(s: State, t: nat, reached: bool, returned: bool, s': State)
    requires Inv(s) && Publish(s, t, reached, returned, s')
    ensures Inv(s') && Grows(s, s')
  {}

  lemma AckPublishedKeeps(s: State, t: nat, s': State)
    requires Inv(s) && AckPublished(s, t, s')
    ensures Inv(s') && Grows(s, s')
  {}

  lemma NackFailedKeeps(s: State, t: nat, s': State)
    requires Inv(s) && NackFailed(s, t, s')
    ensures Inv(s') && Grows(s, s')
  {}

  // ----- Every action keeps the record invariant

  // Of the fields added before publishing, only the approval's creation time is hashed.
  lemma DecorateMirrors(r: Record, createdAt: int, restored: bool, preparedAt: int, receivedAt: int)
    ensures Stable(DecorateApproval(r, createdAt, restored, preparedAt, receivedAt))
         == Stable(r)[ApprovalCreatedAt := Number(createdAt)]
    ensures var d := DecorateApproval(r, createdAt, restored, preparedAt, receivedAt);
            Honest(d) == Honest(r) && PublishPending(d) == PublishPending(r) && forall b :: Names(d, b) == Names(r, b)
  {}

  // A decision that is durable may be made ready for publishing.
  lemma ReadyRecords(s: State, t: nat, back: Record, s': State)
    requires RecordInv(s) && ApprovalAt(s, t) && s' == Goto(Release(s, t), t, Ready(back))
    requires Honest(back) && !PublishPending(back) && Faithful(s, back, s.threads[t].message.binding)
    requires Mirrors(s, s.threads[t].message, back)
    ensures RecordInv(s')
  {}

  lemma SettleSound(r: Record, c: Value, o: Value)
    ensures Honest(r) ==> Honest(Settle(r, c, o))
    ensures Consumed(r) ==> Consumed(Settle(r, c, o))
    ensures PublishPending(Settle(r, c, o)) == PublishPending(r)
    ensures forall b :: Names(r, b) ==> Names(Settle(r, c, o), b)
  {}

  lemma SealSound(m: Message, first: bool, r: Record, n: nat)
    ensures Honest(r) ==> Honest(Seal(m, first, r, n))
    ensures PublishPending(Seal(m, first, r, n)) == PublishPending(r)
    ensures forall b :: Names(r, b) ==> Names(Seal(m, first, r, n), b)
  {}

  // The executor's result file and its return value change together.
  lemma StoreAndReturn(s: State, t: nat, r: Record, back: Record, s': State)
    requires RecordInv(s) && OrderAt(s, t)
    requires exists restored :: s' == Goto(StoreAt(s, KeyOf(s, t), r), t, Returned(restored, back))
                                || s' == Goto(StoreAt(MarkReplayed(s, t), KeyOf(s, t), r), t, Returned(restored, back))
    requires Honest(r) && Honest(back) && !PublishPending(r) && !PublishPending(back)
    requires Faithful(s, r, s.threads[t].message.binding) && Faithful(s, back, s.threads[t].message.binding)
    ensures RecordInv(s')
  {}

  lemma RecoverCancellationRecords(s: State, k: Key, c: Value, o: Value, at: int, s': State)
    requires RecordInv(s) && Grows(s, s') && RecoverCancellation(s, k, c, o, at, s')
    ensures RecordInv(s')
  {}

  lemma PublishRecoveredRecords(s: State, k: Key, s': State)
    requires RecordInv(s) && Grows(s, s') && PublishRecovered(s, k, s')
    ensures RecordInv(s')
  {}

  lemma MarkPublishedRecords(s: State, k: Key, at: int, s': State)
    requires RecordInv(s) && Grows(s, s') && MarkPublished(s, k, at, s')
    ensures RecordInv(s')
  {}

  lemma StartServingRecords(s: State, s': State)
    requires Inv(s) && RecordInv(s) && Grows(s, s') && StartServing(s, s')
    ensures RecordInv(s')
  {}

  lemma CrashRecords(s: State, s': State)
    requires RecordInv(s) && Grows(s, s') && Crash(s, s')
    ensures RecordInv(s')
  {}

  lemma DeliverRecords(s: State, m: Message, s': State)
    requires RecordInv(s) && Grows(s, s') && Deliver(s, m, s')
    ensures RecordInv(s')
  {}

  lemma StopAcceptingRecords(s: State, s': State)
    requires RecordInv(s) && Grows(s, s') && StopAccepting(s, s')
    ensures RecordInv(s')
  {}

  lemma EvictPreparedRecords(s: State, slot: CacheSlot, s': State)
    requires RecordInv(s) && Grows(s, s') && EvictPrepared(s, slot, s')
    ensures RecordInv(s')
  {}

  lemma FinishControlRecords(s: State, t: nat, s': State)
    requires RecordInv(s) && Grows(s, s') && FinishControl(s, t, s')
    ensures RecordInv(s')
  {}

  lemma RaiseErrorRecords(s: State, t: nat, s': State)
    requires RecordInv(s) && Grows(s, s') && RaiseError(s, t, s')
    ensures RecordInv(s')
  {}

  lemma HandleErrorRecords(s: State, t: nat, s': State)
    requires RecordInv(s) && Grows(s, s') && HandleError(s, t, s')
    ensures RecordInv(s')
  {}

  lemma VerifyApprovalRecords(s: State, t: nat, s': State)
    requires RecordInv(s) && Grows(s, s') && VerifyApproval(s, t, s')
    ensures RecordInv(s')
  {}

  lemma TakeLockRecords(s: State, t: nat, s': State)
    requires RecordInv(s) && Grows(s, s') && TakeLock(s, t, s')
    ensures RecordInv(s')
  {}

  lemma ClaimOnceRecords(s: State, t: nat, s': State)
    requires RecordInv(s) && Grows(s, s') && ClaimOnce(s, t, s')
    ensures RecordInv(s')
  {}

  lemma ReplayDecisionRecords(s: State, t: nat, p: int, q: int, s': State)
    requires RecordInv(s) && Grows(s, s') && ReplayDecision(s, t, p, q, s')
    ensures RecordInv(s')
  {
    var m := s.threads[t].message;
    DecorateMirrors(s.disk.decisions[IdOf(m)][ApprovalDecisionReplayed := Flag(true)],
                    m.createdAt, s.threads[t].pc.restored, p, q);
    StableIgnoresVolatile(s.disk.decisions[IdOf(m)], ApprovalDecisionReplayed, Flag(true));
    ReadyRecords(s, t, s'.threads[t].pc.record, s');
  }

  lemma BlockRecoveryRecords(s: State, t: nat, s': State)
    requires RecordInv(s) && Grows(s, s') && BlockRecovery(s, t, s')
    ensures RecordInv(s')
  {}

  lemma EnterExecutorRecords(s: State, t: nat, s': State)
    requires RecordInv(s) && Grows(s, s') && EnterExecutor(s, t, s')
    ensures RecordInv(s')
  {}

  lemma DecisionWritten(s: State, id: ApprovalId, r: Record, s': State)
    requires RecordInv(s) && Honest(r) && !PublishPending(r) && Faithful(s, r, id.binding)
    requires s' == s.(disk := s.disk.(decisions := s.disk.decisions[id := r]), trace := s'.trace)
    requires id in s.disk.decisions ==> s.disk.decisions[id] == r
    ensures RecordInv(s')
  {}

  lemma RecordDecisionRecords(s: State, t: nat, p: int, q: int, s': State)
    requires Inv(s) && RecordInv(s) && Grows(s, s') && RecordDecision(s, t, p, q, s')
    ensures RecordInv(s')
  {
    var m, r := s.threads[t].message, s.threads[t].pc.record;
    var s1 := s.(disk := s.disk.(decisions := s.disk.decisions[IdOf(m) := r]), trace := s'.trace);
    DecisionWritten(s, IdOf(m), r, s1);
    DecorateMirrors(r, m.createdAt, s.threads[t].pc.restored, p, q);
    ReadyRecords(s1, t, s'.threads[t].pc.record, s');
  }

  lemma VerifyDirectRecords(s: State, t: nat, s': State)
    requires RecordInv(s) && Grows(s, s') && VerifyDirect(s, t, s')
    ensures RecordInv(s')
  {}

  lemma ReplayResultRecords(s: State, t: nat, c: Value, o: Value, n: nat, s': State)
    requires RecordInv(s) && Grows(s, s') && ReplayResult(s, t, c, o, n, s')
    ensures RecordInv(s')
  {
    var stored := s.disk.results[KeyOf(s, t)];
    var b := s.threads[t].message.binding;
    SettleSound(stored, c, o);
    var r := if CancelPending(stored) then Settle(stored, c, o) else stored;
    SealSound(s.threads[t].message, s.threads[t].pc.first, r[ReplayedResult := Flag(true)], n);
    StoreAndReturn(s, t, r, Seal(s.threads[t].message, s.threads[t].pc.first, r[ReplayedResult := Flag(true)], n), s');
  }

  lemma ReportUnknownRecords(s: State, t: nat, n: nat, s': State)
    requires RecordInv(s) && Grows(s, s') && ReportUnknown(s, t, n, s')
    ensures RecordInv(s')
  {}

  lemma PassMarkerCheckRecords(s: State, t: nat, s': State)
    requires RecordInv(s) && Grows(s, s') && PassMarkerCheck(s, t, s')
    ensures RecordInv(s')
  {}

  lemma RetryExecuteRecords(s: State, t: nat, s': State)
    requires RecordInv(s) && Grows(s, s') && RetryExecute(s, t, s')
    ensures RecordInv(s')
  {}

  lemma DeclineRecords(s: State, t: nat, r: Record, n: nat, s': State)
    requires RecordInv(s) && Grows(s, s') && Decline(s, t, r, n, s')
    ensures RecordInv(s')
  {}

  lemma BlockSubmissionRecords(s: State, t: nat, s': State)
    requires RecordInv(s) && Grows(s, s') && BlockSubmission(s, t, s')
    ensures RecordInv(s')
  {}

  lemma WriteMarkerRecords(s: State, t: nat, at: int, s': State)
    requires RecordInv(s) && Grows(s, s') && WriteMarker(s, t, at, s')
    ensures RecordInv(s')
  {
    forall u | u in s'.threads ensures RecordThreadOk(s', s'.threads[u]) { assert RecordThreadOk(s, s.threads[u]); }
    forall p | p in s'.history.published ensures PublicationOk(s', p) { assert PublicationOk(s, p); }
  }

  lemma SubmitOrderRecords(s: State, t: nat, s': State)
    requires RecordInv(s) && Grows(s, s') && SubmitOrder(s, t, s')
    ensures RecordInv(s')
  {}

  lemma StoreResultRecords(s: State, t: nat, r: Record, n: nat, s': State)
    requires RecordInv(s) && Grows(s, s') && StoreResult(s, t, r, n, s')
    ensures RecordInv(s')
  {}

  lemma FinishAcceptedRecords(s: State, t: nat, c: Value, o: Value, n: nat, s': State)
    requires RecordInv(s) && Grows(s, s') && FinishAccepted(s, t, c, o, n, s')
    ensures RecordInv(s')
  {
    SettleSound(s.threads[t].pc.record, c, o);
    var r := Settle(s.threads[t].pc.record, c, o);
    SealSound(s.threads[t].message, s.threads[t].pc.first, r, n);
    StoreAndReturn(s, t, r, Seal(s.threads[t].message, s.threads[t].pc.first, r, n), s');
  }

  lemma DecorateResultRecords(s: State, t: nat, q: int, s': State)
    requires RecordInv(s) && Grows(s, s') && DecorateResult(s, t, q, s')
    ensures RecordInv(s')
  {}

  lemma PublishRecords(s: State, t: nat, reached: bool, returned: bool, s': State)
    requires Inv(s) && RecordInv(s) && Grows(s, s') && Publish(s, t, reached, returned, s')
    ensures RecordInv(s')
  {}

  lemma AckPublishedRecords(s: State, t: nat, s': State)
    requires RecordInv(s) && Grows(s, s') && AckPublished(s, t, s')
    ensures RecordInv(s')
  {}

  lemma NackFailedRecords(s: State, t: nat, s': State)
    requires RecordInv(s) && Grows(s, s') && NackFailed(s, t, s')
    ensures RecordInv(s')
  {}

  // ----- Every action keeps the acknowledgement invariant

  lemma PublishedGrow(ps: set<Publication>, qs: set<Publication>)
    requires ps <= qs
    ensures PublishedDeliveries(ps) <= PublishedDeliveries(qs)
  {}

  lemma AnswersNothingKeeps(s: State, s': State)
    requires AckInv(s) && Grows(s, s') && AnswersNothing(s, s')
    ensures AckInv(s') && AnswersGrow(s, s')
  {
    PublishedGrow(s.history.published, s'.history.published);
    forall d | 0 <= d < |s'.history.deliveries| ensures DeliveryOk(s', d) {
      assert DeliveryOk(s, d);
    }
  }

  // The four ways a callback ends.
  lemma DepartureKeeps(s: State, t: nat, s': State)
    requires AckInv(s)
    requires FinishControl(s, t, s') || HandleError(s, t, s') || AckPublished(s, t, s') || NackFailed(s, t, s')
    ensures AckInv(s') && AnswersGrow(s, s')
  {
    assert DeliveryOk(s, t);
    forall d | 0 <= d < |s'.history.deliveries| ensures DeliveryOk(s', d) {
      assert DeliveryOk(s, d);
    }
  }

  lemma DeliverAnswers(s: State, m: Message, s': State)
    requires AckInv(s) && Deliver(s, m, s')
    ensures AckInv(s') && AnswersGrow(s, s')
  {
    forall d | 0 <= d < |s'.history.deliveries| ensures DeliveryOk(s', d) {
      if d < |s.history.deliveries| { assert DeliveryOk(s, d); }
    }
  }

  lemma CrashAnswers(s: State, s': State)
    requires AckInv(s) && Crash(s, s')
    ensures AckInv(s') && AnswersGrow(s, s')
  {
    forall d | 0 <= d < |s'.history.deliveries| ensures DeliveryOk(s', d) {
      assert DeliveryOk(s, d);
    }
  }

  lemma PublishAnswers(s: State, t: nat, reached: bool, returned: bool, s': State)
    requires AckInv(s) && Publish(s, t, reached, returned, s')
    ensures AckInv(s') && AnswersGrow(s, s')
  {
    if returned {
      assert FromDelivery(t, s.threads[t].pc.record) in s'.history.published;
    }
    PublishedGrow(s.history.published, s'.history.published);
    forall d | 0 <= d < |s'.history.deliveries| ensures DeliveryOk(s', d) {
      assert DeliveryOk(s, d);
    }
  }
}
