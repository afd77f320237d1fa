// What every run of the receiver keeps, whatever is delivered, duplicated,
// interleaved or interrupted.

module ReceiverSafety {
  import opened Common
  import opened ResultRecord
  import opened ReceiverProtocol

  predicate PastDecisionCheck(pc: Pc) {
    pc.Execute? || pc.Preparing? || pc.MarkerDurable? || pc.Submitted? || pc.Provisional? || pc.Returned?
  }

  predicate InsideLock(pc: Pc) {
    pc.Locked? || pc.Claimed? || PastDecisionCheck(pc)
  }

  predicate HasMarker(pc: Pc) {
    pc.MarkerDurable? || pc.Submitted? || pc.Provisional?
  }

  predicate HasRecord(pc: Pc) {
    pc.Provisional? || pc.Returned? || pc.Ready?
  }

  // A recovery entry of the executor never gets past the marker check.
  predicate OnlyFirst(pc: Pc) {
    (pc.Preparing? || pc.MarkerDurable? || pc.Submitted? || pc.Provisional?) ==> pc.first
  }

  // ----- At most once: claims, first executions, markers, submissions, decisions

  ghost predicate ApprovalThreadOk(s: State, t: nat, h: Thread)
    requires h.message.Approval?
  {
    var id := IdOf(h.message);
    && (InsideLock(h.pc) ==> s.lock == Some(t))
    && (h.pc.Claimed? || PastDecisionCheck(h.pc) ==> id in s.disk.claims)
    && (h.pc.Claimed? && h.pc.won ==> s.history.firstEntries[id] == 0)
    && (PastDecisionCheck(h.pc) ==> id !in s.disk.decisions)
    && OnlyFirst(h.pc)
    && (h.pc.Execute? && !h.pc.first ==> AttemptKey(s.cfg, h.message.binding) in s.disk.attempts)
  }

  ghost predicate OrderThreadOk(s: State, t: nat, h: Thread)
    requires IsOrder(h.message)
  {
    var k := AttemptKey(s.cfg, h.message.binding);
    && (HasMarker(h.pc) ==> k in s.disk.attempts && k in s.history.markerOwner && s.history.markerOwner[k] == t)
    && (h.pc.MarkerDurable? ==> s.history.submissions[k] == 0)
  }

  ghost predicate ThreadOk(s: State, t: nat, h: Thread) {
    && t < |s.history.deliveries| && s.history.deliveries[t] == h.message
    && (h.message.Approval? ==> ApprovalThreadOk(s, t, h))
    && (IsOrder(h.message) ==> OrderThreadOk(s, t, h))
  }

  ghost predicate DiskOk(s: State) {
    && s.disk.decisions.Keys <= s.disk.claims
    && s.disk.results.Keys <= s.disk.attempts.Keys
    && (forall id :: s.history.firstEntries[id] <= 1)
    && (forall id :: id !in s.disk.claims ==> s.history.firstEntries[id] == 0)
    && (forall k :: s.history.submissions[k] <= 1)
    && (forall k :: k !in s.disk.attempts ==> s.history.submissions[k] == 0)
    && (!s.cfg.continuous ==> s.disk.attempts.Keys <= {SharedKey})
  }

  ghost predicate Inv(s: State) {
    && DiskOk(s)
    && forall t :: t in s.threads ==> ThreadOk(s, t, s.threads[t])
  }

  // ----- Records: durable before published, honest, naming the right order

  // A publishable record hashes like the durable decision it came from.
  ghost predicate Mirrors(s: State, m: Message, r: Record)
    requires m.Approval?
  {
    && IdOf(m) in s.disk.decisions
    && Stable(r) == Stable(s.disk.decisions[IdOf(m)])[ApprovalCreatedAt := Number(m.createdAt)]
  }

  // In a continuous session every record names the order it is filed under.
  ghost predicate Faithful(s: State, r: Record, b: Binding) {
    s.cfg.continuous ==> Names(r, b)
  }

  ghost predicate RecordThreadOk(s: State, h: Thread) {
    && (HasRecord(h.pc) ==> Honest(h.pc.record) && !PublishPending(h.pc.record))
    && (HasRecord(h.pc) && IsOrder(h.message) ==> Faithful(s, h.pc.record, h.message.binding))
    && (h.pc.Ready? && h.message.Approval? ==> Mirrors(s, h.message, h.pc.record))
    && (h.pc.Provisional? ==> Consumed(h.pc.record))
    && (!IsOrder(h.message) ==> h.pc.Entered? || h.pc.Raised?)
  }

  ghost predicate PublicationOk(s: State, p: Publication) {
    && Honest(p.record) && (p.FromStartup? <==> PublishPending(p.record))
    && (p.FromDelivery? ==> p.delivery < |s.history.deliveries|)
    && (p.FromDelivery? ==>
          var m := s.history.deliveries[p.delivery];
          && IsOrder(m)
          && Faithful(s, p.record, m.binding)
          && (m.Approval? ==> Mirrors(s, m, p.record)))
  }

  ghost predicate RecordInv(s: State) {
    && (forall t :: t in s.threads ==> RecordThreadOk(s, s.threads[t]))
    && (forall p :: p in s.history.published ==> PublicationOk(s, p))
    && (forall k :: k in s.disk.results ==>
          && Honest(s.disk.results[k]) && (s.phase == Serving ==> !PublishPending(s.disk.results[k]))
          && (k.OrderKey? ==> Faithful(s, s.disk.results[k], k.binding)))
    && (forall k :: k in s.disk.attempts ==>
          && Honest(s.disk.attempts[k]) && !PublishPending(s.disk.attempts[k])
          && (k.OrderKey? ==> Faithful(s, s.disk.attempts[k], k.binding)))
    && (forall id :: id in s.disk.decisions ==>
          && Honest(s.disk.decisions[id]) && !PublishPending(s.disk.decisions[id])
          && Faithful(s, s.disk.decisions[id], id.binding))
  }

  // ----- Acknowledgement: one ack or nack, never an ack that hides an attempt

  ghost function PublishedDeliveries(ps: set<Publication>): set<nat> {
    set p | p in ps && p.FromDelivery? :: p.delivery
  }

  // In flight, lost with a process, or answered exactly once.
  ghost predicate DeliveryOk(s: State, d: nat) {
    if d in s.threads then
      && s.history.acks[d] == 0 && s.history.nacks[d] == 0 && d !in s.history.lost
      && (s.threads[d].pc.ResultPublished? ==> d in s.trace.returned)
    else if d in s.history.lost then s.history.acks[d] == 0 && s.history.nacks[d] == 0
    else s.history.acks[d] + s.history.nacks[d] == 1
  }

  ghost predicate AckInv(s: State) {
    && (forall d :: 0 <= d < |s.history.deliveries| ==> DeliveryOk(s, d))
    && (forall d :: d in s.threads ==> d < |s.history.deliveries|)
    && (forall d :: d in s.history.lost ==> d < |s.history.deliveries|)
    && (forall d :: d in s.history.acks ==> d < |s.history.deliveries|)
    && (forall d :: d in s.history.nacks ==> d < |s.history.deliveries|)
    && s.history.attemptedAcks <= s.trace.returned <= PublishedDeliveries(s.history.published)
  }

  ghost predicate Safe(s: State) {
    Inv(s) && RecordInv(s) && AckInv(s)
  }

  // ----- What only grows

  // Claims, decisions, attempt markers and publications are never taken back or rewritten.
  ghost predicate Grows(s: State, s': State) {
    && s'.cfg == s.cfg
    && s.disk.claims <= s'.disk.claims
    && (forall id :: id in s.disk.decisions ==>
          id in s'.disk.decisions && s'.disk.decisions[id] == s.disk.decisions[id])
    && (forall k :: k in s.disk.attempts ==> k in s'.disk.attempts && s'.disk.attempts[k] == s.disk.attempts[k])
    && s.history.deliveries <= s'.history.deliveries
    && s.history.published <= s'.history.published
  }

  ghost predicate AnswersGrow(s: State, s': State) {
    s.history.acks <= s'.history.acks && s.history.nacks <= s'.history.nacks
  }

  // Most actions answer no delivery and lose none.
  ghost predicate AnswersNothing(s: State, s': State) {
    && |s'.history.deliveries| == |s.history.deliveries|
    && s'.threads.Keys == s.threads.Keys
    && s'.history.acks == s.history.acks && s'.history.nacks == s.history.nacks
    && s'.history.lost == s.history.lost && s'.history.attemptedAcks == s.history.attemptedAcks
    && s'.trace.returned == s.trace.returned
    && forall t :: t in s'.threads && s'.threads[t].pc.ResultPublished? ==> s.threads[t].pc.ResultPublished?
  }
}
