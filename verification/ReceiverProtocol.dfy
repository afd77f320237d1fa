// The fast-live receiver as a transition system: callback threads interleave
// between durable writes, and the process may die between any two of them.

module ReceiverProtocol {
  import opened Common
  import opened ResultRecord
  import Runs

  datatype Config = Config(continuous: bool, approvalRequired: bool)

  // The approval decision directory is named by a hash of these three values.
  datatype ApprovalId = ApprovalId(binding: Binding, approvalHash: string)

  // A continuous session keeps one attempt file per order; a one-shot session
  // keeps a single attempt file for the whole state root.
  datatype Key = SharedKey | OrderKey(binding: Binding)

  function AttemptKey(cfg: Config, b: Binding): Key {
    if cfg.continuous then OrderKey(b) else SharedKey
  }

  datatype Message =
    | Control
    | Prepare(slot: CacheSlot, prepareHash: string)
    | Approval(binding: Binding, approvalHash: string, slot: CacheSlot, prepareHash: string, createdAt: int)
    | Direct(binding: Binding, createdAt: int)

  datatype CacheSlot = CacheSlot(prediction: string, request: string)

  function IdOf(m: Message): ApprovalId
    requires m.Approval?
  {
    ApprovalId(m.binding, m.approvalHash)
  }

  predicate IsOrder(m: Message) { m.Approval? || m.Direct? }

  datatype Disk = Disk(
    claims: set<ApprovalId>,            // claim.json, created exclusively
    decisions: map<ApprovalId, Record>, // approval-decisions/*/result.json
    attempts: map<Key, Record>,         // attempt.json, created exclusively
    results: map<Key, Record>)          // the executor's result.json

  // Where a callback thread stands. In the approval path every point from Locked
  // to Returned is inside the approval execution lock.
  datatype Pc =
    | Entered
    | AwaitLock
    | Locked(cached: Option<string>)
    | Claimed(won: bool, restored: bool)
    | Execute(first: bool, restored: bool)
    | Preparing(first: bool, restored: bool)
    | MarkerDurable(first: bool, restored: bool)
    | Submitted(first: bool, restored: bool)
    | Provisional(first: bool, restored: bool, record: Record)
    | Returned(restored: bool, record: Record)
    | Ready(record: Record)
    | ResultPublished
    | PublishFailed
    | Raised

  datatype Thread = Thread(message: Message, pc: Pc, orderVerified: bool)

  datatype Phase = Booting | Serving

  // What the run has done so far, beyond what the disk remembers.
  datatype History = History(
    deliveries: seq<Message>,           // delivery d is deliveries[d]
    firstEntries: multiset<ApprovalId>, // first executions started, by approval identity
    markerOwner: map<Key, nat>,         // the delivery whose thread created the marker
    submissions: multiset<Key>,         // calls that reached the exchange
    published: set<Publication>,
    acks: multiset<nat>,
    nacks: multiset<nat>,
    attemptedAcks: set<nat>,            // acked with the execute step reached and a marker present
    lost: set<nat>)                     // in flight when the process died

  // Which publish calls returned, and where results came from.
  datatype Trace = Trace(
    returned: set<nat>,                 // deliveries whose publish call returned
    replayed: set<nat>,                 // deliveries whose record was read from under a marker
    decider: map<ApprovalId, nat>)      // the delivery that recorded the decision

  datatype Publication =
    | FromDelivery(delivery: nat, record: Record)
    | FromStartup(key: Key, record: Record)

  datatype State = State(
    cfg: Config,
    disk: Disk,
    // volatile
    phase: Phase,
    accepting: bool,
    threads: map<nat, Thread>,
    lock: Option<nat>,
    prepared: map<CacheSlot, string>,
    history: History,
    trace: Trace)

  const EmptyDisk := Disk({}, map[], map[], map[])

  function Init(cfg: Config): State {
    State(cfg, EmptyDisk, Booting, false, map[], None, map[],
          History([], multiset{}, map[], multiset{}, {}, multiset{}, multiset{}, {}, {}),
          Trace({}, {}, map[]))
  }

  // ----- Records the receiver builds

  function AttemptRecord(b: Binding, at: int): Record {
    map[Status := Text("network_submission_attempt_starting"),
        IntentId := Text(b.intent), RequestSha := Text(b.request),
        Other("started_at") := Number(at)]
  }

  // What execute returns when a marker exists without a result file.
  function UnknownRecord(attempt: Record): Record {
    attempt[Status := Text("submission_unknown")][AttemptConsumed := Flag(true)][MarkerRecovered := Flag(true)]
  }

  function UnsubmittedRecord(b: Binding, status: string): Record {
    map[Status := Text(status), IntentId := Text(b.intent), RequestSha := Text(b.request),
        AttemptConsumed := Flag(false)]
  }

  // A claim without an attempt and without a result: nothing was submitted, nothing will be.
  function BlockedRecord(b: Binding): Record {
    UnsubmittedRecord(b, "approval_recovery_blocked")[ApprovalDecisionRecovered := Flag(false)]
  }

  function Settle(r: Record, cancellation: Value, official: Value): Record {
    r[Cancellation := cancellation][CancellationPending := Flag(false)][Official := official]
  }

  function RecoverAtStartup(r: Record, cancellation: Value, official: Value, at: int): Record {
    Settle(r, cancellation, official)[PendingCancellationRecovered := Flag(true)]
      [RecoveredAt := Number(at)][RecoveryPublishPending := Flag(true)]
  }

  function MarkRecoveryPublished(r: Record, at: int): Record {
    r[RecoveryPublishPending := Flag(false)][RecoveryPublishedAt := Number(at)]
  }

  // What the caller of the executor adds to the value it gets back.
  function Seal(m: Message, first: bool, r: Record, retries: nat): Record {
    if m.Direct? then r[PreAttemptRetryCount := Number(retries)]
    else if first then r[PreAttemptRetryCount := Number(retries)][ApprovalDecisionReplayed := Flag(false)]
    else r[ApprovalDecisionRecovered := Flag(true)]
  }

  // The fields written after the decision is durable, just before publishing.
  function DecorateApproval(r: Record, createdAt: int, restored: bool, preparedAt: int, receivedAt: int): Record {
    r[PrepareRecoveredAfterRestart := Flag(restored)][PrepareCreatedAt := Number(preparedAt)]
      [ApprovalCreatedAt := Number(createdAt)][ApprovalReceivedAt := Number(receivedAt)]
      [ApprovalToReceiveMs := Number(receivedAt - createdAt)]
  }

  function DecorateDirect(r: Record, createdAt: int, receivedAt: int): Record {
    r[EnvelopeCreatedAt := Number(createdAt)][MessageReceivedAt := Number(receivedAt)]
      [SourceToReceiveMs := Number(receivedAt - createdAt)]
  }

  // ----- Steps

  predicate At(s: State, t: nat) {
    s.phase == Serving && t in s.threads
  }

  predicate OrderAt(s: State, t: nat) {
    At(s, t) && IsOrder(s.threads[t].message)
  }

  predicate ApprovalAt(s: State, t: nat) {
    At(s, t) && s.threads[t].message.Approval?
  }

  predicate DirectAt(s: State, t: nat) {
    At(s, t) && s.threads[t].message.Direct?
  }

  function KeyOf(s: State, t: nat): Key
    requires t in s.threads && IsOrder(s.threads[t].message)
  {
    AttemptKey(s.cfg, s.threads[t].message.binding)
  }

  function ThreadId(s: State, t: nat): ApprovalId
    requires t in s.threads && s.threads[t].message.Approval?
  {
    IdOf(s.threads[t].message)
  }

  function Goto(s: State, t: nat, pc: Pc): State
    requires t in s.threads
  {
    s.(threads := s.threads[t := s.threads[t].(pc := pc)])
  }

  function AckAndLeave(s: State, t: nat): State {
    var h := s.history;
    var attempted := t in s.threads && Attempted(s, t);
    s.(threads := s.threads - {t},
       history := h.(acks := h.acks + multiset{t}, attemptedAcks := h.attemptedAcks + if attempted then {t} else {}))
  }

  function NackAndLeave(s: State, t: nat): State {
    s.(threads := s.threads - {t}, history := s.history.(nacks := s.history.nacks + multiset{t}))
  }

  // The delivery's record was read from the files under its marker.
  function MarkReplayed(s: State, t: nat): State {
    s.(trace := s.trace.(replayed := s.trace.replayed + {t}))
  }

  function MarkReturned(s: State, t: nat, returned: bool): State {
    s.(trace := s.trace.(returned := s.trace.returned + if returned then {t} else {}))
  }

  function Announce(s: State, news: set<Publication>): State {
    s.(history := s.history.(published := s.history.published + news))
  }

  function Release(s: State, t: nat): State {
    s.(lock := if s.lock == Some(t) then None else s.lock)
  }

  function StoreAt(s: State, k: Key, r: Record): State {
    s.(disk := s.disk.(results := s.disk.results[k := r]))
  }

  // Did this thread reach the execute step for an order that now has an attempt marker?
  predicate Attempted(s: State, t: nat)
    requires t in s.threads
  {
    && s.threads[t].orderVerified && IsOrder(s.threads[t].message)
    && KeyOf(s, t) in s.disk.attempts
  }

  // -- Start-up, before the subscription exists

  predicate RecoverCancellation(s: State, k: Key, c: Value, o: Value, at: int, s': State) {
    && s.phase == Booting && k in s.disk.attempts && k in s.disk.results
    && CancelPending(s.disk.results[k]) && Consumed(s.disk.results[k])
    && s' == StoreAt(s, k, RecoverAtStartup(s.disk.results[k], c, o, at))
  }

  predicate PublishRecovered(s: State, k: Key, s': State) {
    && s.phase == Booting && k in s.disk.attempts && k in s.disk.results && PublishPending(s.disk.results[k])
    && s' == Announce(s, {FromStartup(k, s.disk.results[k])})
  }

  predicate MarkPublished(s: State, k: Key, at: int, s': State) {
    && s.phase == Booting && k in s.disk.results && PublishPending(s.disk.results[k])
    && FromStartup(k, s.disk.results[k]) in s.history.published
    && s' == StoreAt(s, k, MarkRecoveryPublished(s.disk.results[k], at))
  }

  // The subscription opens only when nothing is left to cancel or to publish.
  predicate StartServing(s: State, s': State) {
    && s.phase == Booting
    && (forall k :: k in s.disk.attempts && k in s.disk.results ==>
          !CancelPending(s.disk.results[k]) && !PublishPending(s.disk.results[k]))
    && s' == s.(phase := Serving, accepting := true)
  }

  // Only the disk and the history survive.
  predicate Crash(s: State, s': State) {
    s' == s.(phase := Booting, accepting := false, threads := map[], lock := None, prepared := map[],
             history := s.history.(lost := s.history.lost + s.threads.Keys))
  }

  // -- Arrival and shutdown

  predicate Deliver(s: State, m: Message, s': State) {
    && s.phase == Serving
    && var d := |s.history.deliveries|;
       var s1 := s.(history := s.history.(deliveries := s.history.deliveries + [m]));
       s' == if s.accepting then s1.(threads := s.threads[d := Thread(m, Entered, false)])
             else AckAndLeave(s1, d)
  }

  predicate StopAccepting(s: State, s': State) {
    s.phase == Serving && s' == s.(accepting := false)
  }

  predicate EvictPrepared(s: State, slot: CacheSlot, s': State) {
    s.phase == Serving && s' == s.(prepared := s.prepared - {slot})
  }

  // Warm-ups and prepares are acknowledged; a prepare fills the cache first.
  predicate FinishControl(s: State, t: nat, s': State) {
    && At(s, t) && s.threads[t].pc.Entered? && !IsOrder(s.threads[t].message)
    && var m := s.threads[t].message;
       var cache := if m.Prepare? then s.prepared[m.slot := m.prepareHash] else s.prepared;
       s' == AckAndLeave(s.(prepared := cache), t)
  }

  // Any exception inside the callback; the approval lock is released on the way out.
  predicate RaiseError(s: State, t: nat, s': State) {
    && At(s, t) && !s.threads[t].pc.Raised? && !s.threads[t].pc.PublishFailed?
    && s' == Goto(Release(s, t), t, Raised)
  }

  predicate HandleError(s: State, t: nat, s': State) {
    && At(s, t) && s.threads[t].pc.Raised?
    && s' == if Attempted(s, t) then NackAndLeave(s, t) else AckAndLeave(s, t)
  }

  // -- The approval decision, under the approval execution lock

  predicate VerifyApproval(s: State, t: nat, s': State) {
    && ApprovalAt(s, t) && s.threads[t].pc.Entered? && s.cfg.approvalRequired
    && s' == Goto(s, t, AwaitLock)
  }

  predicate TakeLock(s: State, t: nat, s': State) {
    && ApprovalAt(s, t) && s.threads[t].pc.AwaitLock? && s.lock.None?
    && var slot := s.threads[t].message.slot;
       var cached := if slot in s.prepared then Some(s.prepared[slot]) else None;
       s' == Goto(s.(lock := Some(t), prepared := s.prepared - {slot}), t, Locked(cached))
  }

  predicate ClaimOnce(s: State, t: nat, s': State) {
    && ApprovalAt(s, t) && s.threads[t].pc.Locked?
    && var cached := s.threads[t].pc.cached;
       var id := ThreadId(s, t);
    && (cached.Some? ==> cached.value == s.threads[t].message.prepareHash)
    && s' == Goto(s.(disk := s.disk.(claims := s.disk.claims + {id})), t, Claimed(id !in s.disk.claims, cached.None?))
  }

  predicate ReplayDecision(s: State, t: nat, preparedAt: int, receivedAt: int, s': State) {
    && ApprovalAt(s, t) && s.threads[t].pc.Claimed? && ThreadId(s, t) in s.disk.decisions
    && var r := s.disk.decisions[ThreadId(s, t)][ApprovalDecisionReplayed := Flag(true)];
       s' == Goto(Release(s, t), t, Ready(DecorateApproval(r, s.threads[t].message.createdAt,
                                                           s.threads[t].pc.restored, preparedAt, receivedAt)))
  }

  predicate BlockRecovery(s: State, t: nat, s': State) {
    && ApprovalAt(s, t) && s.threads[t].pc.Claimed? && !s.threads[t].pc.won
    && ThreadId(s, t) !in s.disk.decisions && KeyOf(s, t) !in s.disk.attempts
    && s' == Goto(s, t, Returned(s.threads[t].pc.restored, BlockedRecord(s.threads[t].message.binding)))
  }

  predicate EnterExecutor(s: State, t: nat, s': State) {
    && ApprovalAt(s, t) && s.threads[t].pc.Claimed? && ThreadId(s, t) !in s.disk.decisions
    && (s.threads[t].pc.won || KeyOf(s, t) in s.disk.attempts)
    && var won := s.threads[t].pc.won;
       s' == s.(threads := s.threads[t := s.threads[t].(pc := Execute(won, s.threads[t].pc.restored),
                                                        orderVerified := true)],
                history := s.history.(firstEntries := s.history.firstEntries
                                                        + if won then multiset{ThreadId(s, t)} else multiset{}))
  }

  predicate RecordDecision(s: State, t: nat, preparedAt: int, receivedAt: int, s': State) {
    && ApprovalAt(s, t) && s.threads[t].pc.Returned?
    && var r := s.threads[t].pc.record;
       var s1 := s.(disk := s.disk.(decisions := s.disk.decisions[ThreadId(s, t) := r]),
                    trace := s.trace.(decider := s.trace.decider[ThreadId(s, t) := t]));
       s' == Goto(Release(s1, t), t, Ready(DecorateApproval(r, s.threads[t].message.createdAt,
                                                            s.threads[t].pc.restored, preparedAt, receivedAt)))
  }

  // -- The executor; shared by the approval path and the direct path

  predicate VerifyDirect(s: State, t: nat, s': State) {
    && DirectAt(s, t) && s.threads[t].pc.Entered? && !s.cfg.approvalRequired
    && s' == s.(threads := s.threads[t := s.threads[t].(pc := Execute(true, false), orderVerified := true)])
  }

  // A marker and a stored result: replay it, finishing a pending cancellation first.
  predicate ReplayResult(s: State, t: nat, c: Value, o: Value, retries: nat, s': State) {
    && OrderAt(s, t) && s.threads[t].pc.Execute?
    && KeyOf(s, t) in s.disk.attempts && KeyOf(s, t) in s.disk.results
    && var stored := s.disk.results[KeyOf(s, t)];
       var r := if CancelPending(stored) then Settle(stored, c, o) else stored;
       var back := Seal(s.threads[t].message, s.threads[t].pc.first, r[ReplayedResult := Flag(true)], retries);
       s' == Goto(StoreAt(MarkReplayed(s, t), KeyOf(s, t), r), t, Returned(s.threads[t].pc.restored, back))
  }

  predicate ReportUnknown(s: State, t: nat, retries: nat, s': State) {
    && OrderAt(s, t) && s.threads[t].pc.Execute?
    && KeyOf(s, t) in s.disk.attempts && KeyOf(s, t) !in s.disk.results
    && var r := UnknownRecord(s.disk.attempts[KeyOf(s, t)]);
       s' == Goto(MarkReplayed(s, t), t,
                  Returned(s.threads[t].pc.restored, Seal(s.threads[t].message, s.threads[t].pc.first, r, retries)))
  }

  predicate PassMarkerCheck(s: State, t: nat, s': State) {
    && OrderAt(s, t) && s.threads[t].pc.Execute? && KeyOf(s, t) !in s.disk.attempts
    && s' == Goto(s, t, Preparing(s.threads[t].pc.first, s.threads[t].pc.restored))
  }

  // The bounded retry wrapper runs execute again only while no marker exists.
  predicate RetryExecute(s: State, t: nat, s': State) {
    && OrderAt(s, t) && s.threads[t].pc.Preparing? && s.threads[t].pc.first && KeyOf(s, t) !in s.disk.attempts
    && s' == Goto(s, t, Execute(s.threads[t].pc.first, s.threads[t].pc.restored))
  }

  // A fresh book that is not marketable, or retries that ran out.
  predicate Decline(s: State, t: nat, r: Record, retries: nat, s': State) {
    && OrderAt(s, t) && s.threads[t].pc.Preparing?
    && Names(r, s.threads[t].message.binding) && !Consumed(r) && !PublishPending(r)
    && (StatusOf(r) == "fresh_book_rejected" || StatusOf(r) == "pre_attempt_retry_exhausted")
    && var pc := s.threads[t].pc;
       s' == Goto(s, t, Returned(pc.restored, Seal(s.threads[t].message, pc.first, r, retries)))
  }

  // A FastLiveError on the first execution while no marker exists.
  predicate BlockSubmission(s: State, t: nat, s': State) {
    && ApprovalAt(s, t) && s.threads[t].pc.Preparing? && s.threads[t].pc.first && KeyOf(s, t) !in s.disk.attempts
    && var r := UnsubmittedRecord(s.threads[t].message.binding, "pre_submission_blocked");
       s' == Goto(s, t, Returned(s.threads[t].pc.restored, r[ApprovalDecisionReplayed := Flag(false)]))
  }

  // Exclusive create: a thread that finds the marker already there can only raise.
  predicate WriteMarker(s: State, t: nat, at: int, s': State) {
    && OrderAt(s, t) && s.threads[t].pc.Preparing? && KeyOf(s, t) !in s.disk.attempts
    && var r := AttemptRecord(s.threads[t].message.binding, at);
       s' == Goto(s.(disk := s.disk.(attempts := s.disk.attempts[KeyOf(s, t) := r]),
                     history := s.history.(markerOwner := s.history.markerOwner[KeyOf(s, t) := t])),
                  t, MarkerDurable(s.threads[t].pc.first, s.threads[t].pc.restored))
  }

  predicate SubmitOrder(s: State, t: nat, s': State) {
    && OrderAt(s, t) && s.threads[t].pc.MarkerDurable?
    && s' == Goto(s.(history := s.history.(submissions := s.history.submissions + multiset{KeyOf(s, t)})),
                  t, Submitted(s.threads[t].pc.first, s.threads[t].pc.restored))
  }

  predicate StoreResult(s: State, t: nat, r: Record, retries: nat, s': State) {
    && OrderAt(s, t) && s.threads[t].pc.Submitted?
    && Names(r, s.threads[t].message.binding) && Consumed(r) && !PublishPending(r)
    && (StatusOf(r) == "rejected" || StatusOf(r) == "submission_unknown" || CancelPending(r))
    && var pc := s.threads[t].pc;
       s' == Goto(StoreAt(s, KeyOf(s, t), r), t,
                  if CancelPending(r) then Provisional(pc.first, pc.restored, r)
                  else Returned(pc.restored, Seal(s.threads[t].message, pc.first, r, retries)))
  }

  predicate FinishAccepted(s: State, t: nat, c: Value, o: Value, retries: nat, s': State) {
    && OrderAt(s, t) && s.threads[t].pc.Provisional?
    && var pc := s.threads[t].pc;
       var r := Settle(pc.record, c, o);
       s' == Goto(StoreAt(s, KeyOf(s, t), r), t,
                  Returned(pc.restored, Seal(s.threads[t].message, pc.first, r, retries)))
  }

  // -- Publication

  predicate DecorateResult(s: State, t: nat, receivedAt: int, s': State) {
    && DirectAt(s, t) && s.threads[t].pc.Returned?
    && s' == Goto(s, t, Ready(DecorateDirect(s.threads[t].pc.record, s.threads[t].message.createdAt, receivedAt)))
  }

  // A publish call may fail although the message still reaches the topic.
  predicate Publish(s: State, t: nat, reached: bool, returned: bool, s': State) {
    && At(s, t) && s.threads[t].pc.Ready? && (returned ==> reached)
    && var news := if reached then {FromDelivery(t, s.threads[t].pc.record)} else {};
       s' == Goto(Announce(MarkReturned(s, t, returned), news), t, if returned then ResultPublished else PublishFailed)
  }

  predicate AckPublished(s: State, t: nat, s': State) {
    && At(s, t) && s.threads[t].pc.ResultPublished?
    && s' == AckAndLeave(s, t)
  }

  predicate NackFailed(s: State, t: nat, s': State) {
    && At(s, t) && s.threads[t].pc.PublishFailed?
    && s' == NackAndLeave(s, t)
  }

  // ----- Runs

  ghost predicate BootStep(s: State, s': State) {
    || (exists k, c, o, at :: RecoverCancellation(s, k, c, o, at, s'))
    || (exists k :: PublishRecovered(s, k, s'))
    || (exists k, at :: MarkPublished(s, k, at, s'))
    || StartServing(s, s')
    || Crash(s, s')
  }

  ghost predicate ArrivalStep(s: State, s': State) {
    || (exists m :: Deliver(s, m, s'))
    || StopAccepting(s, s')
    || (exists slot :: EvictPrepared(s, slot, s'))
    || (exists t :: FinishControl(s, t, s'))
    || (exists t :: RaiseError(s, t, s'))
    || (exists t :: HandleError(s, t, s'))
  }

  ghost predicate DecisionStep(s: State, s': State) {
    || (exists t :: VerifyApproval(s, t, s'))
    || (exists t :: TakeLock(s, t, s'))
    || (exists t :: ClaimOnce(s, t, s'))
    || (exists t, p, q :: ReplayDecision(s, t, p, q, s'))
    || (exists t :: BlockRecovery(s, t, s'))
    || (exists t :: EnterExecutor(s, t, s'))
    || (exists t, p, q :: RecordDecision(s, t, p, q, s'))
  }

  ghost predicate ExecutorStep(s: State, s': State) {
    || (exists t :: VerifyDirect(s, t, s'))
    || (exists t, c, o, n :: ReplayResult(s, t, c, o, n, s'))
    || (exists t, n :: ReportUnknown(s, t, n, s'))
    || (exists t :: PassMarkerCheck(s, t, s'))
    || (exists t :: RetryExecute(s, t, s'))
    || (exists t, r, n :: Decline(s, t, r, n, s'))
    || (exists t :: BlockSubmission(s, t, s'))
  }

  ghost predicate SubmissionStep(s: State, s': State) {
    || (exists t, at :: WriteMarker(s, t, at, s'))
    || (exists t :: SubmitOrder(s, t, s'))
    || (exists t, r, n :: StoreResult(s, t, r, n, s'))
    || (exists t, c, o, n :: FinishAccepted(s, t, c, o, n, s'))
  }

  ghost predicate PublicationStep(s: State, s': State) {
    || (exists t, q :: DecorateResult(s, t, q, s'))
    || (exists t, reached, returned :: Publish(s, t, reached, returned, s'))
    || (exists t :: AckPublished(s, t, s'))
    || (exists t :: NackFailed(s, t, s'))
  }

  ghost predicate Step(s: State, s': State) {
    BootStep(s, s') || ArrivalStep(s, s') || DecisionStep(s, s') || ExecutorStep(s, s')
    || SubmissionStep(s, s') || PublicationStep(s, s')
  }

  // A run starts with an empty state root.
  ghost predicate IsRun(run: seq<State>) {
    Runs.IsPath(Step, run) && run[0] == Init(run[0].cfg)
  }

  ghost predicate Reaches(s: State, s': State) {
    Runs.Reaches(Step, s, s')
  }
}
