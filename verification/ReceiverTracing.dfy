// Where the record of each delivery comes from, as every receiver action keeps it: from the
// delivery's own execution, or from under a marker that some delivery left there before. The
// invariant ties markers, stored results, decisions, records under way and publications to the
// orders they name. Each action has its own lemma; the last part combines them into one for
// each group of actions. ReceiverOrigins draws the conclusions for runs.

module ReceiverTracing {
  import opened Common
  import opened ResultRecord
  import opened ReceiverProtocol
  import opened ReceiverSafety
  import opened ReceiverSteps

  // The executor has not handed a record back yet.
  predicate BeforeRecord(pc: Pc) {
    pc.Entered? || pc.AwaitLock? || pc.Locked? || pc.Claimed? || pc.Execute? || pc.Preparing?
    || pc.MarkerDurable? || pc.Submitted?
  }

  function KeyFor(s: State, o: nat): Key
    requires o < |s.history.deliveries| && IsOrder(s.history.deliveries[o])
  {
    AttemptKey(s.cfg, s.history.deliveries[o].binding)
  }

  // The marker was created by the delivery of an order that is filed under it.
  ghost predicate Owned(s: State, k: Key) {
    && k in s.disk.attempts && k in s.history.markerOwner
    && var o := s.history.markerOwner[k];
    o < |s.history.deliveries| && IsOrder(s.history.deliveries[o]) && KeyFor(s, o) == k
  }

  // The order whose delivery created the marker.
  ghost function FiledOrder(s: State, k: Key): Binding
    requires Owned(s, k)
  {
    s.history.deliveries[s.history.markerOwner[k]].binding
  }

  // The record of delivery o was read from under a marker.
  ghost predicate FromMarker(s: State, o: nat) {
    o in s.trace.replayed
  }

  ghost predicate HasSource(s: State, o: nat) {
    && o < |s.history.deliveries| && IsOrder(s.history.deliveries[o])
    && (FromMarker(s, o) ==> Owned(s, KeyFor(s, o)))
  }

  // The order that the record of delivery o is about.
  ghost function SourceOf(s: State, o: nat): Binding
    requires HasSource(s, o)
  {
    if FromMarker(s, o) then FiledOrder(s, KeyFor(s, o)) else s.history.deliveries[o].binding
  }

  ghost predicate About(s: State, r: Record, o: nat) {
    HasSource(s, o) && Names(r, SourceOf(s, o))
  }

  // Delivery o has its record, so where that came from is settled.
  ghost predicate Past(s: State, o: nat) {
    o < |s.history.deliveries| && (o in s.threads ==> !BeforeRecord(s.threads[o].pc))
  }

  ghost predicate MarkersOk(s: State) {
    && (forall k :: k in s.disk.attempts ==> Owned(s, k) && Names(s.disk.attempts[k], FiledOrder(s, k)))
    && (forall k :: k in s.disk.results ==> Owned(s, k) && Names(s.disk.results[k], FiledOrder(s, k)))
  }

  ghost predicate DecisionOk(s: State, id: ApprovalId)
    requires id in s.disk.decisions
  {
    && id in s.trace.decider
    && var o := s.trace.decider[id];
    && Past(s, o) && About(s, s.disk.decisions[id], o)
    && s.history.deliveries[o].Approval? && IdOf(s.history.deliveries[o]) == id
  }

  // The delivery whose execution the record of delivery d goes back to.
  ghost predicate Traced(s: State, m: Message, d: nat, r: Record)
    requires IsOrder(m)
  {
    if m.Approval? then
      IdOf(m) in s.disk.decisions && IdOf(m) in s.trace.decider && About(s, r, s.trace.decider[IdOf(m)])
    else About(s, r, d)
  }

  ghost predicate ThreadTraced(s: State, t: nat)
    requires t in s.threads
  {
    var h := s.threads[t];
    && t < |s.history.deliveries| && s.history.deliveries[t] == h.message
    && (BeforeRecord(h.pc) ==> !FromMarker(s, t))
    && (IsOrder(h.message) && (h.pc.Provisional? || h.pc.Returned?) ==> About(s, h.pc.record, t))
    && (IsOrder(h.message) && h.pc.Ready? ==> Traced(s, h.message, t, h.pc.record))
    && (HasRecord(h.pc) ==> IsOrder(h.message))
  }

  ghost predicate PublicationTraced(s: State, p: Publication) {
    match p
    case FromDelivery(d, r) =>
      Past(s, d) && IsOrder(s.history.deliveries[d]) && Traced(s, s.history.deliveries[d], d, r)
    case FromStartup(k, r) => Owned(s, k) && Names(r, FiledOrder(s, k))
  }

  ghost predicate Origins(s: State) {
    && MarkersOk(s)
    && (forall o :: o in s.trace.replayed ==> o < |s.history.deliveries|)
    && (forall id :: id in s.disk.decisions ==> DecisionOk(s, id))
    && (forall t :: t in s.threads ==> ThreadTraced(s, t))
    && (forall p :: p in s.history.published ==> PublicationTraced(s, p))
  }

  // ----- What keeps the source of a record

  // Deliveries, markers and decisions stay; of the records, only those of deliveries that
  // have none yet may still turn out to be read from under a marker.
  ghost predicate Settles(s: State, s': State) {
    && s'.cfg == s.cfg && s.history.deliveries <= s'.history.deliveries
    && (forall k :: k in s.disk.attempts && k in s.history.markerOwner ==>
          k in s'.disk.attempts && k in s'.history.markerOwner && s'.history.markerOwner[k] == s.history.markerOwner[k])
    && (forall id :: id in s.disk.decisions && id in s.trace.decider ==>
          id in s'.disk.decisions && id in s'.trace.decider && s'.trace.decider[id] == s.trace.decider[id]
          && s'.disk.decisions[id] == s.disk.decisions[id])
  }

  lemma AboutStays(s: State, s': State, r: Record, o: nat)
    requires Settles(s, s') && About(s, r, o) && (FromMarker(s', o) <==> FromMarker(s, o))
    ensures About(s', r, o)
  {
    if FromMarker(s, o) { assert Owned(s', KeyFor(s, o)); }
  }

  // A step of thread t at most, which no longer changes where an existing record is from.
  ghost predicate MovesOne(s: State, s': State, t: nat) {
    && (forall u :: u in s'.threads && u != t ==> u in s.threads && s'.threads[u] == s.threads[u])
    && (forall u :: u != t ==> (FromMarker(s', u) <==> FromMarker(s, u)))
    && (t in s'.threads && t !in s.threads ==> t == |s.history.deliveries|)
    && (t in s'.threads && t in s.threads ==> s'.threads[t].message == s.threads[t].message)
    && (FromMarker(s', t) && !FromMarker(s, t) ==> t in s.threads && BeforeRecord(s.threads[t].pc))
    && (FromMarker(s, t) ==> FromMarker(s', t))
    && (t in s'.threads && t in s.threads && BeforeRecord(s'.threads[t].pc) ==> BeforeRecord(s.threads[t].pc))
    && s'.history.published >= s.history.published
  }

  lemma PastStays(s: State, s': State, t: nat, o: nat)
    requires Settles(s, s') && MovesOne(s, s', t) && Past(s, o)
    ensures Past(s', o) && (FromMarker(s', o) <==> FromMarker(s, o))
  {}

  // Records of decisions, publications and other threads keep their source.
  lemma OthersTraced(s: State, s': State, t: nat)
    requires Origins(s) && Settles(s, s') && MovesOne(s, s', t)
    ensures forall id :: id in s.disk.decisions ==> DecisionOk(s', id)
    ensures forall p :: p in s.history.published ==> PublicationTraced(s', p)
    ensures forall u :: u in s'.threads && u != t ==> ThreadTraced(s', u)
  {
    forall id | id in s.disk.decisions ensures DecisionOk(s', id) {
      assert DecisionOk(s, id);
      PastStays(s, s', t, s.trace.decider[id]);
      AboutStays(s, s', s.disk.decisions[id], s.trace.decider[id]);
    }
    forall p | p in s.history.published ensures PublicationTraced(s', p) {
      assert PublicationTraced(s, p);
      if p.FromDelivery? {
        PastStays(s, s', t, p.delivery);
        TracedStays(s, s', t, s.history.deliveries[p.delivery], p.delivery, p.record);
      }
    }
    forall u | u in s'.threads && u != t ensures ThreadTraced(s', u) {
      assert ThreadTraced(s, u);
      var h := s.threads[u];
      if HasRecord(h.pc) && IsOrder(h.message) {
        if h.pc.Ready? {
          TracedStays(s, s', t, h.message, u, h.pc.record);
        } else {
          AboutStays(s, s', h.pc.record, u);
        }
      }
    }
  }

  lemma TracedStays(s: State, s': State, t: nat, m: Message, d: nat, r: Record)
    requires Origins(s) && Settles(s, s') && MovesOne(s, s', t) && IsOrder(m) && Traced(s, m, d, r)
    requires m.Direct? ==> (FromMarker(s', d) <==> FromMarker(s, d))
    ensures Traced(s', m, d, r)
  {
    if m.Approval? {
      assert DecisionOk(s, IdOf(m));
      var o := s.trace.decider[IdOf(m)];
      PastStays(s, s', t, o);
      AboutStays(s, s', r, o);
    } else {
      AboutStays(s, s', r, d);
    }
  }

  lemma MarkersStay(s: State, s': State)
    requires MarkersOk(s) && Settles(s, s')
    requires s'.disk.attempts == s.disk.attempts && s'.disk.results == s.disk.results
    ensures MarkersOk(s')
  {
    forall k | k in s.disk.attempts ensures Owned(s', k) && FiledOrder(s', k) == FiledOrder(s, k) {
      assert Owned(s, k);
    }
  }

  // What a step has to show of the files, the thread and the publications it touches.
  lemma TouchedKeeps(s: State, t: nat, s': State)
    requires Origins(s) && Settles(s, s') && MovesOne(s, s', t) && MarkersOk(s')
    requires forall id :: id in s'.disk.decisions && id !in s.disk.decisions ==> DecisionOk(s', id)
    requires forall p :: p in s'.history.published && p !in s.history.published ==> PublicationTraced(s', p)
    requires t in s'.threads ==> ThreadTraced(s', t)
    requires FromMarker(s', t) ==> t < |s'.history.deliveries|
    ensures Origins(s')
  {
    OthersTraced(s, s', t);
    forall o | o in s'.trace.replayed ensures o < |s'.history.deliveries| {
      if o != t { assert FromMarker(s', o) && FromMarker(s, o); }
    }
  }

  // Steps that write no file and no record, and publish nothing.
  lemma QuietKeeps(s: State, t: nat, s': State)
    requires Origins(s) && Settles(s, s') && MovesOne(s, s', t) && t in s.threads
    requires s'.disk.attempts == s.disk.attempts && s'.disk.results == s.disk.results
    requires s'.disk.decisions == s.disk.decisions && s'.trace.replayed == s.trace.replayed
    requires s'.history.published == s.history.published
    requires t in s'.threads ==> !HasRecord(s'.threads[t].pc)
    ensures Origins(s')
  {
    MarkersStay(s, s');
    assert ThreadTraced(s, t);
    TouchedKeeps(s, t, s');
  }

  // Thread t moves past its record; the files that sources depend on only grow.
  lemma Frames(s: State, t: nat, pc: Pc, s': State)
    requires t in s.threads && s'.threads == s.threads[t := s.threads[t].(pc := pc)]
    requires !BeforeRecord(pc) || (BeforeRecord(s.threads[t].pc) && s'.trace.replayed == s.trace.replayed)
    requires s'.cfg == s.cfg && s'.history.deliveries == s.history.deliveries
    requires s'.history.published >= s.history.published
    requires s.disk.attempts.Keys <= s'.disk.attempts.Keys && s.history.markerOwner.Keys <= s'.history.markerOwner.Keys
    requires forall k :: k in s.disk.attempts && k in s.history.markerOwner ==>
               s'.history.markerOwner[k] == s.history.markerOwner[k]
    requires forall id :: id in s.disk.decisions && id in s.trace.decider ==>
               id in s'.disk.decisions && id in s'.trace.decider && s'.trace.decider[id] == s.trace.decider[id]
               && s'.disk.decisions[id] == s.disk.decisions[id]
    requires s'.trace.replayed == s.trace.replayed
             || (s'.trace.replayed == s.trace.replayed + {t} && BeforeRecord(s.threads[t].pc))
    ensures Settles(s, s') && MovesOne(s, s', t)
  {}

  // ----- Start-up and arrival

  // Steps outside every thread that leave decisions and markers alone.
  lemma BackgroundKeeps(s: State, s': State)
    requires Origins(s) && Settles(s, s') && MarkersOk(s') && s'.trace == s.trace
    requires s'.threads == s.threads || s'.threads == map[]
    requires s'.disk.decisions == s.disk.decisions && s.history.published <= s'.history.published
    requires forall p :: p in s'.history.published && p !in s.history.published ==> PublicationTraced(s', p)
    requires s'.history.deliveries == s.history.deliveries
    ensures Origins(s')
  {
    var t := |s.history.deliveries|;
    TouchedKeeps(s, t, s');
  }

  lemma RenamedKeeps(s: State, k: Key, r: Record, s': State)
    requires Origins(s) && k in s.disk.results && s' == StoreAt(s, k, r)
    requires forall b :: Names(s.disk.results[k], b) ==> Names(r, b)
    ensures Origins(s')
  {
    assert MarkersOk(s') by {
      forall i | i in s.disk.attempts ensures Owned(s', i) && FiledOrder(s', i) == FiledOrder(s, i) {
        assert Owned(s, i);
      }
      assert Owned(s, k);
    }
    BackgroundKeeps(s, s');
  }

  lemma RecoverCancellationTraces(s: State, k: Key, c: Value, o: Value, at: int, s': State)
    requires Origins(s) && RecoverCancellation(s, k, c, o, at, s')
    ensures Origins(s')
  {
    SettleSound(s.disk.results[k], c, o);
    RenamedKeeps(s, k, RecoverAtStartup(s.disk.results[k], c, o, at), s');
  }

  lemma MarkPublishedTraces(s: State, k: Key, at: int, s': State)
    requires Origins(s) && MarkPublished(s, k, at, s')
    ensures Origins(s')
  { RenamedKeeps(s, k, MarkRecoveryPublished(s.disk.results[k], at), s'); }

  lemma PublishRecoveredTraces(s: State, k: Key, s': State)
    requires Origins(s) && PublishRecovered(s, k, s')
    ensures Origins(s')
  {
    MarkersStay(s, s');
    BackgroundKeeps(s, s');
  }

  lemma StartServingTraces(s: State, s': State)
    requires Origins(s) && StartServing(s, s')
    ensures Origins(s')
  {
    MarkersStay(s, s');
    BackgroundKeeps(s, s');
  }

  lemma CrashTraces(s: State, s': State)
    requires Origins(s) && Crash(s, s')
    ensures Origins(s')
  {
    MarkersStay(s, s');
    BackgroundKeeps(s, s');
  }

  lemma BootStepTraces(s: State, s': State)
    requires Origins(s) && BootStep(s, s')
    ensures Origins(s')
  {
    if k: Key, c: Value, o: Value, at: int :| RecoverCancellation(s, k, c, o, at, s') {
      RecoverCancellationTraces(s, k, c, o, at, s');
    }
    else if k: Key :| PublishRecovered(s, k, s') { PublishRecoveredTraces(s, k, s'); }
    else if k: Key, at: int :| MarkPublished(s, k, at, s') { MarkPublishedTraces(s, k, at, s'); }
    else if StartServing(s, s') { StartServingTraces(s, s'); }
    else if Crash(s, s') { CrashTraces(s, s'); }
  }

  lemma DeliverTraces(s: State, m: Message, s': State)
    requires Origins(s) && AckInv(s) && Deliver(s, m, s')
    ensures Origins(s')
  {
    var d := |s.history.deliveries|;
    assert d !in s.trace.replayed && d !in s.threads;
    MarkersStay(s, s');
    TouchedKeeps(s, d, s');
  }

  lemma StopAcceptingTraces(s: State, s': State)
    requires Origins(s) && StopAccepting(s, s')
    ensures Origins(s')
  {
    MarkersStay(s, s');
    BackgroundKeeps(s, s');
  }

  lemma EvictPreparedTraces(s: State, slot: CacheSlot, s': State)
    requires Origins(s) && EvictPrepared(s, slot, s')
    ensures Origins(s')
  {
    MarkersStay(s, s');
    BackgroundKeeps(s, s');
  }

  lemma FinishControlTraces(s: State, t: nat, s': State)
    requires Origins(s) && FinishControl(s, t, s')
    ensures Origins(s')
  { QuietKeeps(s, t, s'); }

  lemma RaiseErrorTraces(s: State, t: nat, s': State)
    requires Origins(s) && RaiseError(s, t, s')
    ensures Origins(s')
  { QuietKeeps(s, t, s'); }

  lemma HandleErrorTraces(s: State, t: nat, s': State)
    requires Origins(s) && HandleError(s, t, s')
    ensures Origins(s')
  { QuietKeeps(s, t, s'); }

  lemma ArrivalStepTraces(s: State, s': State)
    requires AckInv(s) && Origins(s) && ArrivalStep(s, s')
    ensures Origins(s')
  {
    if m: Message :| Deliver(s, m, s') { DeliverTraces(s, m, s'); }
    else if StopAccepting(s, s') { StopAcceptingTraces(s, s'); }
    else if slot: CacheSlot :| EvictPrepared(s, slot, s') { EvictPreparedTraces(s, slot, s'); }
    else if t: nat :| FinishControl(s, t, s') { FinishControlTraces(s, t, s'); }
    else if t: nat :| RaiseError(s, t, s') { RaiseErrorTraces(s, t, s'); }
    else if t: nat :| HandleError(s, t, s') { HandleErrorTraces(s, t, s'); }
  }

  // ----- Decisions

  // The thread gets a record, and no file changes that a source depends on.
  lemma RecordKeeps(s: State, t: nat, s': State)
    requires Origins(s) && Settles(s, s') && MovesOne(s, s', t) && t in s.threads
    requires s'.disk.attempts == s.disk.attempts && s'.disk.results == s.disk.results
    requires s'.disk.decisions == s.disk.decisions && s'.history.published == s.history.published
    requires t in s'.threads && ThreadTraced(s', t)
    ensures Origins(s')
  {
    MarkersStay(s, s');
    assert ThreadTraced(s, t);
    TouchedKeeps(s, t, s');
  }

  lemma ReplayDecisionTraced(s: State, t: nat, p: int, q: int, s': State)
    requires ReplayDecision(s, t, p, q, s') && Settles(s, s') && ThreadTraced(s, t) && DecisionOk(s, ThreadId(s, t))
    ensures ThreadTraced(s', t)
  {
    var h := s.threads[t];
    var id := IdOf(h.message);
    DecorateMirrors(s.disk.decisions[id][ApprovalDecisionReplayed := Flag(true)],
                    h.message.createdAt, h.pc.restored, p, q);
    AboutStays(s, s', s'.threads[t].pc.record, s.trace.decider[id]);
  }

  lemma ReplayDecisionTraces(s: State, t: nat, p: int, q: int, s': State)
    requires Origins(s) && ReplayDecision(s, t, p, q, s')
    ensures Origins(s')
  {
    Frames(s, t, s'.threads[t].pc, s');
    assert ThreadTraced(s, t) && DecisionOk(s, ThreadId(s, t));
    ReplayDecisionTraced(s, t, p, q, s');
    RecordKeeps(s, t, s');
  }

  lemma OwnRecordTraced(s: State, t: nat, restored: bool, r: Record, s': State)
    requires OrderAt(s, t) && BeforeRecord(s.threads[t].pc) && Names(r, s.threads[t].message.binding)
    requires ThreadTraced(s, t) && s' == Goto(s, t, Returned(restored, r))
    ensures ThreadTraced(s', t)
  {}

  // A record of this very delivery names its own order.
  lemma OwnRecordKeeps(s: State, t: nat, restored: bool, r: Record, s': State)
    requires Origins(s) && OrderAt(s, t) && BeforeRecord(s.threads[t].pc) && Names(r, s.threads[t].message.binding)
    requires s' == Goto(s, t, Returned(restored, r))
    ensures Origins(s')
  {
    Frames(s, t, Returned(restored, r), s');
    OwnRecordTraced(s, t, restored, r, s');
    RecordKeeps(s, t, s');
  }

  lemma RecordDecisionTraced(s: State, t: nat, p: int, q: int, s': State)
    requires RecordDecision(s, t, p, q, s') && Settles(s, s') && ThreadTraced(s, t)
    ensures ThreadTraced(s', t) && DecisionOk(s', ThreadId(s, t))
  {
    var h := s.threads[t];
    DecorateMirrors(h.pc.record, h.message.createdAt, h.pc.restored, p, q);
    AboutStays(s, s', h.pc.record, t);
  }

  lemma RecordDecisionTraces(s: State, t: nat, p: int, q: int, s': State)
    requires Inv(s) && Origins(s) && RecordDecision(s, t, p, q, s')
    ensures Origins(s')
  {
    assert ThreadOk(s, t, s.threads[t]) && ThreadId(s, t) !in s.disk.decisions;
    Frames(s, t, s'.threads[t].pc, s');
    assert ThreadTraced(s, t);
    RecordDecisionTraced(s, t, p, q, s');
    MarkersStay(s, s');
    TouchedKeeps(s, t, s');
  }

  lemma VerifyApprovalTraces(s: State, t: nat, s': State)
    requires Origins(s) && VerifyApproval(s, t, s')
    ensures Origins(s')
  { QuietKeeps(s, t, s'); }

  lemma TakeLockTraces(s: State, t: nat, s': State)
    requires Origins(s) && TakeLock(s, t, s')
    ensures Origins(s')
  { QuietKeeps(s, t, s'); }

  lemma ClaimOnceTraces(s: State, t: nat, s': State)
    requires Origins(s) && ClaimOnce(s, t, s')
    ensures Origins(s')
  { QuietKeeps(s, t, s'); }

  lemma EnterExecutorTraces(s: State, t: nat, s': State)
    requires Origins(s) && EnterExecutor(s, t, s')
    ensures Origins(s')
  { QuietKeeps(s, t, s'); }

  lemma BlockRecoveryTraces(s: State, t: nat, s': State)
    requires Origins(s) && BlockRecovery(s, t, s')
    ensures Origins(s')
  { OwnRecordKeeps(s, t, s.threads[t].pc.restored, BlockedRecord(s.threads[t].message.binding), s'); }

  lemma DecisionStepTraces(s: State, s': State)
    requires Inv(s) && Origins(s) && DecisionStep(s, s')
    ensures Origins(s')
  {
    if t: nat :| VerifyApproval(s, t, s') { VerifyApprovalTraces(s, t, s'); }
    else if t: nat :| TakeLock(s, t, s') { TakeLockTraces(s, t, s'); }
    else if t: nat :| ClaimOnce(s, t, s') { ClaimOnceTraces(s, t, s'); }
    else if t: nat, p: int, q: int :| ReplayDecision(s, t, p, q, s') { ReplayDecisionTraces(s, t, p, q, s'); }
    else if t: nat :| BlockRecovery(s, t, s') { BlockRecoveryTraces(s, t, s'); }
    else if t: nat :| EnterExecutor(s, t, s') { EnterExecutorTraces(s, t, s'); }
    else if t: nat, p: int, q: int :| RecordDecision(s, t, p, q, s') { RecordDecisionTraces(s, t, p, q, s'); }
  }

  // ----- The executor

  // The markers stay, and the result under k, if it changes, names the owner's order.
  lemma MarkersRename(s: State, k: Key, s': State)
    requires MarkersOk(s) && Settles(s, s') && s'.disk.attempts == s.disk.attempts && Owned(s, k)
    requires s'.disk.results == s.disk.results
             || (k in s'.disk.results && s'.disk.results == s.disk.results[k := s'.disk.results[k]]
                 && Names(s'.disk.results[k], FiledOrder(s, k)))
    ensures MarkersOk(s')
  {
    forall i | i in s.disk.attempts ensures Owned(s', i) && FiledOrder(s', i) == FiledOrder(s, i) {
      assert Owned(s, i);
    }
  }

  lemma MarkerRecordTraced(s: State, t: nat, restored: bool, back: Record, s': State)
    requires OrderAt(s, t) && BeforeRecord(s.threads[t].pc) && ThreadTraced(s, t) && Settles(s, s')
    requires Owned(s, KeyOf(s, t)) && Names(back, FiledOrder(s, KeyOf(s, t)))
    requires s'.threads == s.threads[t := s.threads[t].(pc := Returned(restored, back))] && FromMarker(s', t)
    ensures ThreadTraced(s', t)
  {
    assert Owned(s', KeyOf(s, t));
  }

  // The record is read from under the marker, whosever order that holds.
  lemma MarkerRecordKeeps(s: State, t: nat, restored: bool, r: Record, back: Record, s': State)
    requires Origins(s) && OrderAt(s, t) && BeforeRecord(s.threads[t].pc)
    requires s' == Goto(MarkReplayed(s, t), t, Returned(restored, back))
             || s' == Goto(StoreAt(MarkReplayed(s, t), KeyOf(s, t), r), t, Returned(restored, back))
    requires Owned(s, KeyOf(s, t)) && Names(r, FiledOrder(s, KeyOf(s, t))) && Names(back, FiledOrder(s, KeyOf(s, t)))
    ensures Origins(s')
  {
    Frames(s, t, Returned(restored, back), s');
    MarkersRename(s, KeyOf(s, t), s');
    assert ThreadTraced(s, t);
    MarkerRecordTraced(s, t, restored, back, s');
    TouchedKeeps(s, t, s');
  }

  lemma ReplayResultTraces(s: State, t: nat, c: Value, o: Value, n: nat, s': State)
    requires Origins(s) && ReplayResult(s, t, c, o, n, s')
    ensures Origins(s')
  {
    var h, stored := s.threads[t], s.disk.results[KeyOf(s, t)];
    var r := if CancelPending(stored) then Settle(stored, c, o) else stored;
    SettleSound(stored, c, o);
    SealSound(h.message, h.pc.first, r[ReplayedResult := Flag(true)], n);
    MarkerRecordKeeps(s, t, h.pc.restored, r, Seal(h.message, h.pc.first, r[ReplayedResult := Flag(true)], n), s');
  }

  lemma ReportUnknownTraces(s: State, t: nat, n: nat, s': State)
    requires Origins(s) && ReportUnknown(s, t, n, s')
    ensures Origins(s')
  {
    var h, attempt := s.threads[t], s.disk.attempts[KeyOf(s, t)];
    SealSound(h.message, h.pc.first, UnknownRecord(attempt), n);
    MarkerRecordKeeps(s, t, h.pc.restored, attempt, Seal(h.message, h.pc.first, UnknownRecord(attempt), n), s');
  }

  lemma VerifyDirectTraces(s: State, t: nat, s': State)
    requires Origins(s) && VerifyDirect(s, t, s')
    ensures Origins(s')
  { QuietKeeps(s, t, s'); }

  lemma PassMarkerCheckTraces(s: State, t: nat, s': State)
    requires Origins(s) && PassMarkerCheck(s, t, s')
    ensures Origins(s')
  { QuietKeeps(s, t, s'); }

  lemma RetryExecuteTraces(s: State, t: nat, s': State)
    requires Origins(s) && RetryExecute(s, t, s')
    ensures Origins(s')
  { QuietKeeps(s, t, s'); }

  lemma DeclineTraces(s: State, t: nat, r: Record, n: nat, s': State)
    requires Origins(s) && Decline(s, t, r, n, s')
    ensures Origins(s')
  {
    SealSound(s.threads[t].message, s.threads[t].pc.first, r, n);
    OwnRecordKeeps(s, t, s.threads[t].pc.restored, Seal(s.threads[t].message, s.threads[t].pc.first, r, n), s');
  }

  lemma BlockSubmissionTraces(s: State, t: nat, s': State)
    requires Origins(s) && BlockSubmission(s, t, s')
    ensures Origins(s')
  { OwnRecordKeeps(s, t, s.threads[t].pc.restored, s'.threads[t].pc.record, s'); }

  lemma ExecutorStepTraces(s: State, s': State)
    requires Origins(s) && ExecutorStep(s, s')
    ensures Origins(s')
  {
    if t: nat :| VerifyDirect(s, t, s') { VerifyDirectTraces(s, t, s'); }
    else if t: nat, c: Value, o: Value, n: nat :| ReplayResult(s, t, c, o, n, s') {
      ReplayResultTraces(s, t, c, o, n, s');
    }
    else if t: nat, n: nat :| ReportUnknown(s, t, n, s') { ReportUnknownTraces(s, t, n, s'); }
    else if t: nat :| PassMarkerCheck(s, t, s') { PassMarkerCheckTraces(s, t, s'); }
    else if t: nat :| RetryExecute(s, t, s') { RetryExecuteTraces(s, t, s'); }
    else if t: nat, r: Record, n: nat :| Decline(s, t, r, n, s') { DeclineTraces(s, t, r, n, s'); }
    else if t: nat :| BlockSubmission(s, t, s') { BlockSubmissionTraces(s, t, s'); }
  }

  lemma WriteMarkerMarkers(s: State, t: nat, at: int, s': State)
    requires WriteMarker(s, t, at, s') && MarkersOk(s) && Settles(s, s') && ThreadTraced(s, t)
    requires s.disk.results.Keys <= s.disk.attempts.Keys
    ensures MarkersOk(s')
  {
    forall i | i in s.disk.attempts ensures Owned(s', i) && FiledOrder(s', i) == FiledOrder(s, i) {
      assert Owned(s, i);
    }
  }

  lemma WriteMarkerTraces(s: State, t: nat, at: int, s': State)
    requires Inv(s) && Origins(s) && WriteMarker(s, t, at, s')
    ensures Origins(s')
  {
    Frames(s, t, s'.threads[t].pc, s');
    assert ThreadTraced(s, t);
    WriteMarkerMarkers(s, t, at, s');
    TouchedKeeps(s, t, s');
  }

  lemma OwnResultTraced(s: State, t: nat, pc: Pc, s': State)
    requires OrderAt(s, t) && ThreadTraced(s, t) && Settles(s, s') && (pc.Provisional? || pc.Returned?)
    requires Names(pc.record, s.threads[t].message.binding)
    requires s'.threads == s.threads[t := s.threads[t].(pc := pc)] && s'.trace == s.trace
    requires Owned(s, KeyOf(s, t)) && FiledOrder(s, KeyOf(s, t)) == s.threads[t].message.binding
    ensures ThreadTraced(s', t)
  {
    assert Owned(s', KeyOf(s, t));
  }

  // The owner of a marker stores the result under it.
  lemma OwnResultKeeps(s: State, t: nat, r: Record, pc: Pc, s': State)
    requires Inv(s) && Origins(s) && OrderAt(s, t) && HasMarker(s.threads[t].pc) && (pc.Provisional? || pc.Returned?)
    requires s' == Goto(StoreAt(s, KeyOf(s, t), r), t, pc)
    requires var b := s.threads[t].message.binding; Names(r, b) && Names(pc.record, b)
    ensures Origins(s')
  {
    assert ThreadTraced(s, t) && ThreadOk(s, t, s.threads[t]) && Owned(s, KeyOf(s, t));
    Frames(s, t, pc, s');
    MarkersRename(s, KeyOf(s, t), s');
    OwnResultTraced(s, t, pc, s');
    TouchedKeeps(s, t, s');
  }

  lemma StoreResultTraces(s: State, t: nat, r: Record, n: nat, s': State)
    requires Inv(s) && Origins(s) && StoreResult(s, t, r, n, s')
    ensures Origins(s')
  {
    SealSound(s.threads[t].message, s.threads[t].pc.first, r, n);
    OwnResultKeeps(s, t, r, s'.threads[t].pc, s');
  }

  lemma FinishAcceptedTraces(s: State, t: nat, c: Value, o: Value, n: nat, s': State)
    requires Inv(s) && Origins(s) && FinishAccepted(s, t, c, o, n, s')
    ensures Origins(s')
  {
    var h := s.threads[t];
    assert ThreadTraced(s, t) && ThreadOk(s, t, h) && Owned(s, KeyOf(s, t));
    assert SourceOf(s, t) == h.message.binding;
    var r := Settle(h.pc.record, c, o);
    SettleSound(h.pc.record, c, o);
    SealSound(h.message, h.pc.first, r, n);
    OwnResultKeeps(s, t, r, s'.threads[t].pc, s');
  }

  lemma SubmitOrderTraces(s: State, t: nat, s': State)
    requires Origins(s) && SubmitOrder(s, t, s')
    ensures Origins(s')
  { QuietKeeps(s, t, s'); }

  lemma SubmissionStepTraces(s: State, s': State)
    requires Inv(s) && Origins(s) && SubmissionStep(s, s')
    ensures Origins(s')
  {
    if t: nat, at: int :| WriteMarker(s, t, at, s') { WriteMarkerTraces(s, t, at, s'); }
    else if t: nat :| SubmitOrder(s, t, s') { SubmitOrderTraces(s, t, s'); }
    else if t: nat, r: Record, n: nat :| StoreResult(s, t, r, n, s') { StoreResultTraces(s, t, r, n, s'); }
    else if t: nat, c: Value, o: Value, n: nat :| FinishAccepted(s, t, c, o, n, s') {
      FinishAcceptedTraces(s, t, c, o, n, s');
    }
  }

  lemma DecorateResultTraces(s: State, t: nat, q: int, s': State)
    requires Origins(s) && DecorateResult(s, t, q, s')
    ensures Origins(s')
  {
    assert ThreadTraced(s, t);
    AboutStays(s, s', s.threads[t].pc.record, t);
    RecordKeeps(s, t, s');
  }

  lemma PublishTraced(s: State, t: nat, reached: bool, returned: bool, s': State)
    requires Publish(s, t, reached, returned, s') && ThreadTraced(s, t)
    requires Traced(s', s.threads[t].message, t, s.threads[t].pc.record)
    ensures ThreadTraced(s', t) && PublicationTraced(s', FromDelivery(t, s.threads[t].pc.record))
  {}

  lemma PublishTraces(s: State, t: nat, reached: bool, returned: bool, s': State)
    requires Origins(s) && Publish(s, t, reached, returned, s')
    ensures Origins(s')
  {
    var h := s.threads[t];
    Frames(s, t, s'.threads[t].pc, s');
    assert ThreadTraced(s, t);
    TracedStays(s, s', t, h.message, t, h.pc.record);
    PublishTraced(s, t, reached, returned, s');
    MarkersStay(s, s');
    TouchedKeeps(s, t, s');
  }

  lemma AckPublishedTraces(s: State, t: nat, s': State)
    requires Origins(s) && AckPublished(s, t, s')
    ensures Origins(s')
  { QuietKeeps(s, t, s'); }

  lemma NackFailedTraces(s: State, t: nat, s': State)
    requires Origins(s) && NackFailed(s, t, s')
    ensures Origins(s')
  { QuietKeeps(s, t, s'); }

  lemma PublicationStepTraces(s: State, s': State)
    requires Origins(s) && PublicationStep(s, s')
    ensures Origins(s')
  {
    if t: nat, q: int :| DecorateResult(s, t, q, s') { DecorateResultTraces(s, t, q, s'); }
    else if t: nat, reached: bool, returned: bool :| Publish(s, t, reached, returned, s') {
      PublishTraces(s, t, reached, returned, s');
    }
    else if t: nat :| AckPublished(s, t, s') { AckPublishedTraces(s, t, s'); }
    else if t: nat :| NackFailed(s, t, s') { NackFailedTraces(s, t, s'); }
  }
}
