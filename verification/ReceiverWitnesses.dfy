// Runs the receiver really has, showing where a stronger guarantee would be false: a result
// that start-up recovery republishes under another hash, a second order that a one-shot
// receiver answers with the first order's result, and a second approval message whose result
// hashes differently. They are put together from stretches of one action or a few.

module ReceiverWitnesses {
  import opened Common
  import opened ResultRecord
  import opened ReceiverProtocol
  import opened ReceiverPaths
  import Runs
  import T = ReceiverTheorems

  const ORDER := Binding("intent", "request")
  const LIVE := Config(true, true)
  const ONE_SHOT := Config(false, true)
  const APPROVAL := CreatedAt(0)

  function CreatedAt(at: int): Message {
    Message.Approval(ORDER, "hash", CacheSlot("p", "request"), "prepare", at)
  }

  function Accepted(): Record {
    map[Status := Text("accepted"), IntentId := Text("intent"), RequestSha := Text("request"),
        AttemptConsumed := Flag(true), CancellationPending := Flag(true)]
  }

  function Rejected(): Record {
    map[Status := Text("rejected"), IntentId := Text("intent"), RequestSha := Text("request"),
        AttemptConsumed := Flag(true)]
  }

  // ----- Stretches the runs below are made of

  predicate Idle(s: State) {
    s.phase == Serving && s.accepting && s.threads == map[] && s.lock == None && s.prepared == map[]
  }

  // One thread is in the callback, holding the lock.
  predicate Alone(s: State, d: nat, m: Message, pc: Pc, verified: bool) {
    && s.phase == Serving && s.accepting && s.lock == Some(d) && s.prepared == map[]
    && s.threads == map[d := Thread(m, pc, verified)]
  }

  lemma StartsServing(s0: State, s: State) returns (s': State)
    requires Reaches(s0, s) && s.phase == Booting && s.threads == map[] && s.lock == None && s.prepared == map[]
    requires forall k :: k in s.disk.results ==> !CancelPending(s.disk.results[k]) && !PublishPending(s.disk.results[k])
    ensures Reaches(s0, s') && Idle(s') && s' == s.(phase := Serving, accepting := true)
  {
    s' := s.(phase := Serving, accepting := true);
    StartServingOn(s0, s, s');
  }

  // An approval arrives, takes the lock and claims its decision.
  lemma Claims(s0: State, s: State, m: Message) returns (s': State)
    requires Reaches(s0, s) && Idle(s) && s.cfg.approvalRequired && m.Approval?
    ensures var d := |s.history.deliveries|;
            && Reaches(s0, s') && Alone(s', d, m, Claimed(IdOf(m) !in s.disk.claims, true), false)
            && s'.cfg == s.cfg && s'.disk == s.disk.(claims := s.disk.claims + {IdOf(m)})
            && s'.history == s.history.(deliveries := s.history.deliveries + [m]) && s'.trace == s.trace
  {
    var d := |s.history.deliveries|;
    var a1 := s.(threads := map[d := Thread(m, Entered, false)],
                 history := s.history.(deliveries := s.history.deliveries + [m]));
    assert s.threads[d := Thread(m, Entered, false)] == a1.threads;
    DeliverOn(s0, s, m, a1);
    var a2 := Goto(a1, d, AwaitLock);
    VerifyApprovalOn(s0, a1, d, a2);
    var a3 := Goto(a2.(lock := Some(d)), d, Locked(None));
    TakeLockOn(s0, a2, d, a3);
    s' := Goto(a3.(disk := a3.disk.(claims := a3.disk.claims + {IdOf(m)})), d,
               Claimed(IdOf(m) !in s.disk.claims, true));
    ClaimOnceOn(s0, a3, d, s');
  }

  // The claimed decision goes to the executor.
  lemma Enters(s0: State, s: State, d: nat, m: Message, won: bool) returns (s': State)
    requires Reaches(s0, s) && m.Approval? && Alone(s, d, m, Claimed(won, true), false)
    requires IdOf(m) !in s.disk.decisions && (won || AttemptKey(s.cfg, m.binding) in s.disk.attempts)
    ensures Reaches(s0, s') && Alone(s', d, m, Execute(won, true), true)
    ensures s'.cfg == s.cfg && s'.disk == s.disk && s'.trace == s.trace
    ensures s'.history.deliveries == s.history.deliveries && s'.history.published == s.history.published
  {
    s' := s.(threads := s.threads[d := s.threads[d].(pc := Execute(won, true), orderVerified := true)],
             history := s.history.(firstEntries := s.history.firstEntries
                                                     + if won then multiset{IdOf(m)} else multiset{}));
    EnterExecutorOn(s0, s, d, s');
  }

  // The first execution writes its marker and submits.
  lemma Submits(s0: State, s: State, d: nat, m: Message) returns (s': State)
    requires Reaches(s0, s) && m.Approval? && Alone(s, d, m, Execute(true, true), true)
    requires AttemptKey(s.cfg, m.binding) !in s.disk.attempts
    ensures Reaches(s0, s') && Alone(s', d, m, Submitted(true, true), true) && s'.cfg == s.cfg
    ensures s'.disk == s.disk.(attempts := s.disk.attempts[AttemptKey(s.cfg, m.binding) := AttemptRecord(m.binding, 0)])
    ensures s'.history.deliveries == s.history.deliveries && s'.history.published == s.history.published
  {
    var k := AttemptKey(s.cfg, m.binding);
    var a1 := Goto(s, d, Preparing(true, true));
    PassMarkerCheckOn(s0, s, d, a1);
    var a2 := Goto(a1.(disk := a1.disk.(attempts := a1.disk.attempts[k := AttemptRecord(m.binding, 0)]),
                       history := a1.history.(markerOwner := a1.history.markerOwner[k := d])),
                   d, MarkerDurable(true, true));
    WriteMarkerOn(s0, a1, d, 0, a2);
    s' := Goto(a2.(history := a2.history.(submissions := a2.history.submissions + multiset{k})),
               d, Submitted(true, true));
    SubmitOrderOn(s0, a2, d, s');
  }

  // The marker and a stored result are there already: it is replayed.
  lemma Replays(s0: State, s: State, d: nat, m: Message, won: bool) returns (s': State)
    requires Reaches(s0, s) && m.Approval? && Alone(s, d, m, Execute(won, true), true)
    requires AttemptKey(s.cfg, m.binding) in s.disk.attempts && AttemptKey(s.cfg, m.binding) in s.disk.results
    requires !CancelPending(s.disk.results[AttemptKey(s.cfg, m.binding)])
    ensures Reaches(s0, s') && s'.cfg == s.cfg && s'.disk == s.disk
    ensures var stored := s.disk.results[AttemptKey(s.cfg, m.binding)];
            Alone(s', d, m, Returned(true, Seal(m, won, stored[ReplayedResult := Flag(true)], 0)), true)
    ensures s'.history == s.history
  {
    var k := AttemptKey(s.cfg, m.binding);
    var back := Seal(m, won, s.disk.results[k][ReplayedResult := Flag(true)], 0);
    s' := Goto(StoreAt(MarkReplayed(s, d), k, s.disk.results[k]), d, Returned(true, back));
    ReplayResultOn(s0, s, d, Flag(false), Flag(false), 0, s');
  }

  // The decision is recorded and published, and the delivery is acked.
  lemma Answers(s0: State, s: State, d: nat, m: Message, back: Record, verified: bool) returns (s': State)
    requires Reaches(s0, s) && m.Approval? && Alone(s, d, m, Returned(true, back), verified)
    ensures Reaches(s0, s') && Idle(s') && s'.cfg == s.cfg
    ensures s'.disk == s.disk.(decisions := s.disk.decisions[IdOf(m) := back])
    ensures s'.history.deliveries == s.history.deliveries
    ensures s'.history.published
         == s.history.published + {FromDelivery(d, DecorateApproval(back, m.createdAt, true, 3, 4))}
  {
    var r := DecorateApproval(back, m.createdAt, true, 3, 4);
    var a1 := Goto(Release(s.(disk := s.disk.(decisions := s.disk.decisions[IdOf(m) := back]),
                              trace := s.trace.(decider := s.trace.decider[IdOf(m) := d])), d), d, Ready(r));
    RecordDecisionOn(s0, s, d, 3, 4, a1);
    s' := PublishesAndAcks(s0, a1, d, m, r, verified);
  }

  lemma PublishesAndAcks(s0: State, s: State, d: nat, m: Message, r: Record, verified: bool) returns (s': State)
    requires Reaches(s0, s) && s.phase == Serving && s.accepting && s.lock == None && s.prepared == map[]
    requires s.threads == map[d := Thread(m, Ready(r), verified)]
    ensures Reaches(s0, s') && Idle(s') && s'.cfg == s.cfg && s'.disk == s.disk
    ensures s'.history.deliveries == s.history.deliveries
    ensures s'.history.published == s.history.published + {FromDelivery(d, r)}
  {
    var a1 := Goto(Announce(MarkReturned(s, d, true), {FromDelivery(d, r)}), d, ResultPublished);
    PublishOn(s0, s, d, true, true, a1);
    s' := AckAndLeave(a1, d);
    AckPublishedOn(s0, a1, d, s');
  }

  // ----- Start-up recovery publishes under another hash

  lemma RecoveredRecord()
    ensures CancelPending(Accepted()) && Consumed(Accepted()) && Names(Accepted(), ORDER) && !PublishPending(Accepted())
    ensures var r := RecoverAtStartup(Accepted(), Text("done"), Text("open"), 1);
            && PublishPending(r) && Names(r, ORDER) && !CancelPending(r)
            && !PublishPending(MarkRecoveryPublished(r, 2)) && !CancelPending(MarkRecoveryPublished(r, 2))
  {}

  // The process dies before the cancellation finishes: only a provisional result is left.
  lemma DiesProvisional(s0: State, s: State) returns (s': State)
    requires Reaches(s0, s) && s.cfg == LIVE && Alone(s, 0, APPROVAL, Submitted(true, true), true)
    ensures Reaches(s0, s') && s'.cfg == LIVE && s'.phase == Booting
    ensures s'.threads == map[] && s'.lock == None && s'.prepared == map[]
    ensures s'.disk == s.disk.(results := s.disk.results[OrderKey(ORDER) := Accepted()])
    ensures s'.history.deliveries == s.history.deliveries && s'.history.published == s.history.published
  {
    RecoveredRecord();
    var a := Goto(StoreAt(s, OrderKey(ORDER), Accepted()), 0, Provisional(true, true, Accepted()));
    StoreResultOn(s0, s, 0, Accepted(), 0, a);
    s' := a.(phase := Booting, accepting := false, threads := map[], lock := None, prepared := map[],
             history := a.history.(lost := a.history.lost + a.threads.Keys));
    CrashOn(s0, a, s');
  }

  // The next start finishes the cancellation, publishes, and serves again.
  lemma RecoversAndServes(s0: State, s: State, r: Record) returns (s': State)
    requires Reaches(s0, s) && s.cfg == LIVE && s.phase == Booting
    requires s.threads == map[] && s.lock == None && s.prepared == map[]
    requires OrderKey(ORDER) in s.disk.attempts && s.disk.results == map[OrderKey(ORDER) := Accepted()]
    requires r == RecoverAtStartup(Accepted(), Text("done"), Text("open"), 1)
    ensures Reaches(s0, s') && s'.cfg == LIVE && Idle(s')
    ensures s'.disk == s.disk.(results := map[OrderKey(ORDER) := MarkRecoveryPublished(r, 2)])
    ensures s'.history == s.history.(published := s.history.published + {FromStartup(OrderKey(ORDER), r)})
  {
    var k := OrderKey(ORDER);
    RecoveredRecord();
    var a1 := StoreAt(s, k, r);
    RecoverCancellationOn(s0, s, k, Text("done"), Text("open"), 1, a1);
    var a2 := Announce(a1, {FromStartup(k, r)});
    PublishRecoveredOn(s0, a1, k, a2);
    var a3 := StoreAt(a2, k, MarkRecoveryPublished(r, 2));
    MarkPublishedOn(s0, a2, k, 2, a3);
    s' := StartsServing(s0, a3);
  }

  lemma HashesDiffer(s0: State, s: State, p: Publication, q: Publication)
    requires s0 == Init(LIVE) && Reaches(s0, s)
    requires p in s.history.published && q in s.history.published && p.FromStartup? && q.FromDelivery?
    ensures Stable(p.record) != Stable(q.record)
  {
    var run :| Runs.IsPath(Step, run) && run[0] == s0 && run[|run| - 1] == s;
    T.StartupNeverHashesLikeDelivery(run, |run| - 1, p, q);
  }

  // One order is published twice with different replay hashes: by start-up recovery, and
  // for the approval that is delivered again.
  lemma StartupRecoveryChangesTheHash() returns (s: State, p: Publication, q: Publication)
    ensures Reaches(Init(LIVE), s) && p in s.history.published && q in s.history.published
    ensures q.FromDelivery? && q.delivery < |s.history.deliveries| && s.history.deliveries[q.delivery] == APPROVAL
    ensures Names(p.record, ORDER) && Stable(p.record) != Stable(q.record)
  {
    var s0 := Init(LIVE);
    Runs.ReachesSelf(Step, s0);
    s := StartsServing(s0, s0);
    s := Claims(s0, s, APPROVAL);
    s := Enters(s0, s, 0, APPROVAL, true);
    s := Submits(s0, s, 0, APPROVAL);
    s := DiesProvisional(s0, s);
    var r := RecoverAtStartup(Accepted(), Text("done"), Text("open"), 1);
    s := RecoversAndServes(s0, s, r);
    RecoveredRecord();
    s := Claims(s0, s, APPROVAL);
    s := Enters(s0, s, 1, APPROVAL, false);
    s := Replays(s0, s, 1, APPROVAL, false);
    var back := s.threads[1].pc.record;
    s := Answers(s0, s, 1, APPROVAL, back, true);
    p, q := FromStartup(OrderKey(ORDER), r), FromDelivery(1, DecorateApproval(back, 0, true, 3, 4));
    HashesDiffer(s0, s, p, q);
  }

  // ----- A one-shot receiver answers a second order with the result of the first

  lemma Rejects(s0: State, s: State) returns (s': State)
    requires Reaches(s0, s) && s.cfg == ONE_SHOT && Alone(s, 0, APPROVAL, Submitted(true, true), true)
    ensures Reaches(s0, s') && s'.cfg == ONE_SHOT
    ensures Alone(s', 0, APPROVAL, Returned(true, Seal(APPROVAL, true, Rejected(), 0)), true)
    ensures s'.disk == s.disk.(results := s.disk.results[SharedKey := Rejected()]) && s'.history == s.history
  {
    s' := Goto(StoreAt(s, SharedKey, Rejected()), 0, Returned(true, Seal(APPROVAL, true, Rejected(), 0)));
    StoreResultOn(s0, s, 0, Rejected(), 0, s');
  }

  lemma FirstOrderRejected(s0: State) returns (s: State)
    requires s0 == Init(ONE_SHOT)
    ensures Reaches(s0, s) && Idle(s) && s.cfg == ONE_SHOT && s.history.deliveries == [APPROVAL]
    ensures s.disk.claims == {IdOf(APPROVAL)} && s.disk.decisions.Keys == {IdOf(APPROVAL)}
    ensures SharedKey in s.disk.attempts && s.disk.results == map[SharedKey := Rejected()]
  {
    Runs.ReachesSelf(Step, s0);
    s := StartsServing(s0, s0);
    s := Claims(s0, s, APPROVAL);
    s := Enters(s0, s, 0, APPROVAL, true);
    s := Submits(s0, s, 0, APPROVAL);
    s := Rejects(s0, s);
    s := Answers(s0, s, 0, APPROVAL, Seal(APPROVAL, true, Rejected(), 0), true);
  }

  // The second approval is for another order; what is published for it names the first.
  lemma SecondOrderGetsFirstResult(other: Message) returns (s: State, r: Record)
    requires other.Approval? && other.binding != ORDER
    ensures Reaches(Init(ONE_SHOT), s) && s.history.deliveries == [APPROVAL, other]
    ensures FromDelivery(1, r) in s.history.published
    ensures Names(r, ORDER) && !Names(r, other.binding) && StatusOf(r) == "rejected"
  {
    var s0 := Init(ONE_SHOT);
    s := FirstOrderRejected(s0);
    s := Claims(s0, s, other);
    s := Enters(s0, s, 1, other, true);
    s := Replays(s0, s, 1, other, true);
    s, r := AnswersForFirst(s0, s, other, s.threads[1].pc.record);
  }

  lemma AnswersForFirst(s0: State, s: State, other: Message, back: Record) returns (s': State, r: Record)
    requires Reaches(s0, s) && other.Approval? && Alone(s, 1, other, Returned(true, back), true)
    requires Names(back, ORDER) && StatusOf(back) == "rejected"
    ensures Reaches(s0, s') && s'.history.deliveries == s.history.deliveries
    ensures FromDelivery(1, r) in s'.history.published && Names(r, ORDER) && StatusOf(r) == "rejected"
  {
    s' := Answers(s0, s, 1, other, back, true);
    r := DecorateApproval(back, other.createdAt, true, 3, 4);
  }

  // ----- Two approval messages of one identity, created at different times

  // The first execution is blocked before it submits anything.
  lemma Blocks(s0: State, s: State, d: nat, m: Message) returns (s': State, back: Record)
    requires Reaches(s0, s) && m.Approval? && Alone(s, d, m, Execute(true, true), true)
    requires AttemptKey(s.cfg, m.binding) !in s.disk.attempts
    ensures Reaches(s0, s') && Alone(s', d, m, Returned(true, back), true) && s'.cfg == s.cfg && s'.disk == s.disk
    ensures s'.history == s.history
  {
    var a := Goto(s, d, Preparing(true, true));
    PassMarkerCheckOn(s0, s, d, a);
    back := UnsubmittedRecord(m.binding, "pre_submission_blocked")[ApprovalDecisionReplayed := Flag(false)];
    s' := Goto(a, d, Returned(true, back));
    BlockSubmissionOn(s0, a, d, s');
  }

  // A decision on file is replayed and published for the later message.
  lemma ReplaysDecision(s0: State, s: State, d: nat, m: Message) returns (s': State, r: Record)
    requires Reaches(s0, s) && m.Approval? && Alone(s, d, m, Claimed(false, true), false)
    requires IdOf(m) in s.disk.decisions
    ensures Reaches(s0, s') && s'.history.deliveries == s.history.deliveries
    ensures s'.history.published == s.history.published + {FromDelivery(d, r)}
  {
    r := DecorateApproval(s.disk.decisions[IdOf(m)][ApprovalDecisionReplayed := Flag(true)], m.createdAt, true, 5, 6);
    var a := Goto(Release(s, d), d, Ready(r));
    ReplayDecisionOn(s0, s, d, 5, 6, a);
    s' := PublishesAndAcks(s0, a, d, m, r, false);
  }

  // A second message with another creation time: its result has another replay hash.
  lemma LaterMessageChangesTheHash(at: int) returns (s: State, p: Publication, q: Publication)
    requires at != 0
    ensures Reaches(Init(LIVE), s) && s.history.deliveries == [APPROVAL, CreatedAt(at)]
    ensures p in s.history.published && q in s.history.published
    ensures p.FromDelivery? && p.delivery == 0 && q.FromDelivery? && q.delivery == 1
    ensures Stable(p.record) != Stable(q.record)
  {
    var s0 := Init(LIVE);
    var later := CreatedAt(at);
    Runs.ReachesSelf(Step, s0);
    s := StartsServing(s0, s0);
    s := Claims(s0, s, APPROVAL);
    s := Enters(s0, s, 0, APPROVAL, true);
    var back;
    s, back := Blocks(s0, s, 0, APPROVAL);
    s := Answers(s0, s, 0, APPROVAL, back, true);
    s := Claims(s0, s, later);
    var r;
    s, r := ReplaysDecision(s0, s, 1, later);
    p, q := FromDelivery(0, DecorateApproval(back, 0, true, 3, 4)), FromDelivery(1, r);
    var run :| Runs.IsPath(Step, run) && run[0] == s0 && run[|run| - 1] == s;
    T.ApprovalResultsHashAlike(run, |run| - 1, p, q);
  }

  // ----- A direct order that is delivered again

  const DIRECT := Config(false, false)

  // One thread is in the callback; the direct path takes no lock.
  predicate Free(s: State, d: nat, m: Message, pc: Pc) {
    && s.phase == Serving && s.accepting && s.lock == None && s.prepared == map[]
    && s.threads == map[d := Thread(m, pc, true)]
  }

  lemma ArrivesDirect(s0: State, s: State, m: Message) returns (s': State)
    requires Reaches(s0, s) && Idle(s) && !s.cfg.approvalRequired && m.Direct?
    ensures var d := |s.history.deliveries|;
            && Reaches(s0, s') && Free(s', d, m, Execute(true, false)) && s'.cfg == s.cfg && s'.disk == s.disk
            && s'.history == s.history.(deliveries := s.history.deliveries + [m])
  {
    var d := |s.history.deliveries|;
    var a := s.(threads := map[d := Thread(m, Entered, false)],
                history := s.history.(deliveries := s.history.deliveries + [m]));
    assert s.threads[d := Thread(m, Entered, false)] == a.threads;
    DeliverOn(s0, s, m, a);
    s' := a.(threads := a.threads[d := Thread(m, Execute(true, false), true)]);
    VerifyDirectOn(s0, a, d, s');
  }

  lemma SubmitsDirect(s0: State, s: State, d: nat, m: Message) returns (s': State)
    requires Reaches(s0, s) && s.cfg == DIRECT && m.Direct? && m.binding == ORDER && Free(s, d, m, Execute(true, false))
    requires s.disk == EmptyDisk
    ensures Reaches(s0, s') && s'.cfg == DIRECT && Free(s', d, m, Submitted(true, false))
    ensures s'.disk == EmptyDisk.(attempts := map[SharedKey := AttemptRecord(ORDER, 0)])
    ensures s'.history.deliveries == s.history.deliveries && s'.history.published == s.history.published
  {
    var a1 := Goto(s, d, Preparing(true, false));
    PassMarkerCheckOn(s0, s, d, a1);
    var a2 := Goto(a1.(disk := a1.disk.(attempts := map[SharedKey := AttemptRecord(ORDER, 0)]),
                       history := a1.history.(markerOwner := a1.history.markerOwner[SharedKey := d])),
                   d, MarkerDurable(true, false));
    WriteMarkerOn(s0, a1, d, 0, a2);
    s' := Goto(a2.(history := a2.history.(submissions := a2.history.submissions + multiset{SharedKey})),
               d, Submitted(true, false));
    SubmitOrderOn(s0, a2, d, s');
  }

  // The order is submitted and rejected, after n retries.
  lemma RejectsDirect(s0: State, s: State, d: nat, m: Message, n: nat) returns (s': State)
    requires Reaches(s0, s) && s.cfg == DIRECT && m.Direct? && m.binding == ORDER && Free(s, d, m, Execute(true, false))
    requires s.disk == EmptyDisk
    ensures Reaches(s0, s') && s'.cfg == DIRECT && Free(s', d, m, Returned(false, Seal(m, true, Rejected(), n)))
    ensures s'.disk == EmptyDisk.(attempts := map[SharedKey := AttemptRecord(ORDER, 0)],
                                  results := map[SharedKey := Rejected()])
    ensures s'.history.deliveries == s.history.deliveries && s'.history.published == s.history.published
  {
    var a := SubmitsDirect(s0, s, d, m);
    s' := Goto(StoreAt(a, SharedKey, Rejected()), d, Returned(false, Seal(m, true, Rejected(), n)));
    StoreResultOn(s0, a, d, Rejected(), n, s');
  }

  // Without a retry: the marker and the result are there.
  lemma ReplaysDirect(s0: State, s: State, d: nat, m: Message) returns (s': State)
    requires Reaches(s0, s) && s.cfg == DIRECT && m.Direct? && Free(s, d, m, Execute(true, false))
    requires SharedKey in s.disk.attempts && s.disk.results == map[SharedKey := Rejected()]
    ensures Reaches(s0, s') && s'.history == s.history
    ensures Free(s', d, m, Returned(false, Seal(m, true, Rejected()[ReplayedResult := Flag(true)], 0)))
  {
    var back := Seal(m, true, Rejected()[ReplayedResult := Flag(true)], 0);
    s' := Goto(StoreAt(MarkReplayed(s, d), SharedKey, Rejected()), d, Returned(false, back));
    ReplayResultOn(s0, s, d, Flag(false), Flag(false), 0, s');
  }

  // The message reaches the topic; the delivery is acked if the call returns, and otherwise
  // nacked, to come again.
  lemma PublishesDirect(s0: State, s: State, d: nat, m: Message, back: Record, at: int, returned: bool)
    returns (s': State)
    requires Reaches(s0, s) && m.Direct? && Free(s, d, m, Returned(false, back))
    ensures Reaches(s0, s') && Idle(s') && s'.cfg == s.cfg && s'.disk == s.disk
    ensures s'.history.deliveries == s.history.deliveries
    ensures s'.history.published == s.history.published + {FromDelivery(d, DecorateDirect(back, m.createdAt, at))}
  {
    var r := DecorateDirect(back, m.createdAt, at);
    var a1 := Goto(s, d, Ready(r));
    DecorateResultOn(s0, s, d, at, a1);
    var a2 := Goto(Announce(MarkReturned(a1, d, returned), {FromDelivery(d, r)}), d,
                   if returned then ResultPublished else PublishFailed);
    PublishOn(s0, a1, d, true, returned, a2);
    if returned {
      s' := AckAndLeave(a2, d);
      AckPublishedOn(s0, a2, d, s');
    } else {
      s' := NackAndLeave(a2, d);
      NackFailedOn(s0, a2, d, s');
    }
  }

  // The same message, delivered again after a publish call that failed although the result
  // went out: the two results hash alike exactly when the first execution took no retry.
  lemma RedeliveryCountsItsOwnRetries(n: nat) returns (s: State, p: Publication, q: Publication)
    ensures Reaches(Init(DIRECT), s) && s.history.deliveries == [Direct(ORDER, 0), Direct(ORDER, 0)]
    ensures p in s.history.published && q in s.history.published
    ensures p.FromDelivery? && p.delivery == 0 && q.FromDelivery? && q.delivery == 1
    ensures Stable(p.record) == Stable(q.record) <==> n == 0
  {
    var s0, m := Init(DIRECT), Direct(ORDER, 0);
    Runs.ReachesSelf(Step, s0);
    s := StartsServing(s0, s0);
    s := ArrivesDirect(s0, s, m);
    s := RejectsDirect(s0, s, 0, m, n);
    s := PublishesDirect(s0, s, 0, m, Seal(m, true, Rejected(), n), 1, false);
    s := ArrivesDirect(s0, s, m);
    s := ReplaysDirect(s0, s, 1, m);
    s := PublishesDirect(s0, s, 1, m, Seal(m, true, Rejected()[ReplayedResult := Flag(true)], 0), 2, true);
    p := FromDelivery(0, DecorateDirect(Seal(m, true, Rejected(), n), 0, 1));
    q := FromDelivery(1, DecorateDirect(Seal(m, true, Rejected()[ReplayedResult := Flag(true)], 0), 0, 2));
    RetriesShow(m, n);
  }

  lemma RetriesShow(m: Message, n: nat)
    requires m.Direct?
    ensures var p := DecorateDirect(Seal(m, true, Rejected(), n), 0, 1);
            var q := DecorateDirect(Seal(m, true, Rejected()[ReplayedResult := Flag(true)], 0), 0, 2);
            Stable(p) == Stable(q) <==> n == 0
  {
    var p := DecorateDirect(Seal(m, true, Rejected(), n), 0, 1);
    var q := DecorateDirect(Seal(m, true, Rejected()[ReplayedResult := Flag(true)], 0), 0, 2);
    assert Stable(p)[PreAttemptRetryCount] == Number(n) && Stable(q)[PreAttemptRetryCount] == Number(0);
  }
}
