// Each action of the source keeps the invariants. First what holds in every state: receipts,
// results, callbacks, the note, the awaited order, and what is unresolved or unsettled apart
// from skipped and stray orders. Then what holds as long as neither race occurs, from states
// in which it holds. The larger proofs are split by the parts of the invariant.

module SourceSteps {
  import opened Common
  import opened ResultRecord
  import opened SourceProtocol
  import opened SourceSafety

  // ----- What the disk shows after a marker and after a first recording

  lemma MarkerSettles(d: Disk, b: Binding)
    ensures Unsettled(d.(settlements := d.settlements + {b})) == Unsettled(d) - {b}
  {}

  lemma RecordingResolves(d: Disk, b: Binding, r: Receipt)
    requires b !in d.results
    ensures var d' := d.(results := d.results[b := r]);
            && Unsettled(d') == Unsettled(d) + (if r.needs && b !in d.settlements then {b} else {})
            && Unresolved(d') == Unresolved(d) - {b}
  {}

  // ----- Parts of the larger proofs

  lemma StableIsResult(cfg: Config, b: Binding, r: Record, needs: bool)
    requires Names(r, b) && b.intent in cfg.requests && cfg.requests[b.intent] == b.request
    requires needs ==> Consumed(r)
    ensures ResultOk(cfg, b, ReceiptOf(r, needs))
  {}

  lemma RecordFirstResults(s: State, t: nat, needs: bool, s': State)
    requires FilesOk(s) && RecordFirst(s, t, needs, s')
    ensures forall b :: b in s'.disk.results ==> ResultOk(s'.cfg, b, s'.disk.results[b])
  {
    assert ThreadOk(s, t);
    StableIsResult(s.cfg, s.threads[t].binding, s.threads[t].result, needs);
  }

  lemma RecordFirstFiles(s: State, t: nat, needs: bool, s': State)
    requires FilesOk(s) && RecordFirst(s, t, needs, s')
    ensures forall b :: b in s'.disk.results ==> ResultOk(s'.cfg, b, s'.disk.results[b])
    ensures forall u :: u in s'.threads ==> ThreadOk(s', u)
  {
    RecordFirstResults(s, t, needs, s');
    forall u | u in s'.threads ensures ThreadOk(s', u) { assert ThreadOk(s, u); }
  }

  lemma RecordFirstSettled(s: State, t: nat, needs: bool, s': State)
    requires Inv(s) && RecordFirst(s, t, needs, s')
    ensures ResolvedAt(s') && SettledAt(s')
  {
    RecordingResolves(s.disk, s.threads[t].binding, ReceiptOf(s.threads[t].result, needs));
    assert Unresolved(s'.disk) - s'.skipped <= Unresolved(s.disk) - s.skipped;
    if s.pc.Settling? {
      var b :| Carries(s.disk.results, b, s.pc.intent);
      assert Carries(s'.disk.results, b, s.pc.intent);
    }
  }

  lemma UnawaitedFiles(s: State)
    requires FilesOk(s) && Subscribed(s.pc)
    ensures FilesOk(Unawaited(s))
  {
    var s1 := Unawaited(s);
    forall u | u in s1.threads ensures ThreadOk(s1, u) { assert ThreadOk(s, u); }
  }

  lemma MovedFiles(s: State, pc: Pc)
    requires FilesOk(s) && Subscribed(s.pc) && Subscribed(pc)
    ensures FilesOk(s.(pc := pc))
  {
    var s1 := s.(pc := pc);
    forall u | u in s1.threads ensures ThreadOk(s1, u) { assert ThreadOk(s, u); }
  }

  lemma StoppedFiles(s: State)
    requires FilesOk(s)
    ensures FilesOk(Stopped(s))
  {}

  lemma ResetFiles(s: State, s': State)
    requires FilesOk(s) && ResetState(s, s')
    ensures FilesOk(s')
  {
    UnawaitedFiles(s);
    var s1 := Unawaited(s);
    if s'.pc.Down? { StoppedFiles(s1); } else { MovedFiles(s1, s'.pc); }
  }

  lemma ResetResolved(s: State, s': State)
    requires Inv(s) && ResetState(s, s')
    ensures ResolvedAt(s')
  {}

  lemma ResetSettled(s: State, s': State)
    requires FilesOk(s) && s.note.Some? && SettledAt(s) && ResetState(s, s')
    ensures SettledAt(s')
  {
    var c := s.awaited.value;
    assert s'.astray == s.astray;
    assert ResultOk(s.cfg, c, s.disk.results[c]);
    if s.disk.results[c].needs {
      assert Carries(s.disk.results, c, c.intent);
    } else {
      assert Unsettled(s'.disk) - s'.astray == {};
    }
  }

  lemma ResetAstray(s: State, s': State)
    requires FilesOk(s) && s.note.None? && SettledAt(s) && ResetState(s, s')
    ensures SettledAt(s')
  {}

  lemma SettleFiles(s: State, b: Binding, s': State)
    requires FilesOk(s) && Settle(s, b, s')
    ensures FilesOk(s')
  {
    forall u | u in s'.threads ensures ThreadOk(s', u) { assert ThreadOk(s, u); }
  }

  lemma SettleSettled(s: State, b: Binding, s': State)
    requires Inv(s) && Settle(s, b, s')
    ensures ResolvedAt(s') && SettledAt(s')
  {
    MarkerSettles(s.disk, b);
    forall c | c in Unsettled(s.disk) - s.astray ensures c == b {
      assert ResultOk(s.cfg, c, s.disk.results[c]) && ResultOk(s.cfg, b, s.disk.results[b]);
    }
  }

  lemma FaultKeeps(s: State, s': State)
    requires Inv(s) && s' == s.(disk := s'.disk, threads := s'.threads) && Subscribed(s.pc)
    requires s'.disk == s.disk.(fault := true)
    requires forall t :: t in s'.threads ==> ThreadOk(s', t)
    ensures Inv(s')
  {
    assert Unsettled(s'.disk) == Unsettled(s.disk) && Unresolved(s'.disk) == Unresolved(s.disk);
  }

  // ----- Every action keeps what holds in every state

  lemma StartSettlingKeeps(s: State, b: Binding, s': State)
    requires StartSettling(s, b, s')
    ensures Grows(s, s')
    ensures Inv(s) ==> Inv(s')
  {}

  lemma SettleAtStartKeeps(s: State, b: Binding, s': State)
    requires SettleAtStart(s, b, s')
    ensures Grows(s, s')
    ensures Inv(s) ==> Inv(s')
  {
    MarkerSettles(s.disk, b);
    assert Unsettled(s'.disk) - s'.astray <= Unsettled(s.disk) - s.astray;
  }

  lemma StartCleanKeeps(s: State, s': State)
    requires StartClean(s, s')
    ensures Grows(s, s')
    ensures Inv(s) ==> Inv(s')
  {}

  lemma OpenKeeps(s: State, b: Option<Binding>, s': State)
    requires Open(s, b, s')
    ensures Grows(s, s')
    ensures Inv(s) ==> Inv(s')
  {}

  lemma StopKeeps(s: State, s': State)
    requires Stop(s, s')
    ensures Grows(s, s')
    ensures Inv(s) ==> Inv(s')
  {}

  lemma ReceiveKeeps(s: State, t: nat, b: Binding, r: Record, s': State)
    requires Receive(s, t, b, r, s')
    ensures Grows(s, s')
    ensures Inv(s) ==> Inv(s')
  {}

  lemma RecordFirstKeeps(s: State, t: nat, needs: bool, s': State)
    requires RecordFirst(s, t, needs, s')
    ensures Grows(s, s')
    ensures Inv(s) ==> Inv(s')
  {
    if Inv(s) { RecordFirstFiles(s, t, needs, s'); RecordFirstSettled(s, t, needs, s'); }
  }

  lemma ReplaySameKeeps(s: State, t: nat, s': State)
    requires ReplaySame(s, t, s')
    ensures Grows(s, s')
    ensures Inv(s) ==> Inv(s')
  {}

  lemma LatchFaultKeeps(s: State, t: nat, s': State)
    requires LatchFault(s, t, s')
    ensures Grows(s, s')
    ensures Inv(s) ==> Inv(s')
  {
    if Inv(s) {
      forall u | u in s'.threads ensures ThreadOk(s', u) { assert ThreadOk(s, u); }
      FaultKeeps(s, s');
    }
  }

  lemma RaiseFaultKeeps(s: State, t: nat, s': State)
    requires RaiseFault(s, t, s')
    ensures Grows(s, s')
    ensures Inv(s) ==> Inv(s')
  {}

  lemma NotifyKeeps(s: State, t: nat, s': State)
    requires Notify(s, t, s')
    ensures Grows(s, s')
    ensures Inv(s) ==> Inv(s')
  {}

  lemma StartPublishKeeps(s: State, b: Binding, s': State)
    requires StartPublish(s, b, s')
    ensures Grows(s, s')
    ensures Inv(s) ==> Inv(s')
  {}

  lemma SendKeeps(s: State, reached: bool, returned: bool, s': State)
    requires Send(s, reached, returned, s')
    ensures Grows(s, s')
    ensures Inv(s) ==> Inv(s')
  {}

  lemma WriteReceiptKeeps(s: State, s': State)
    requires WriteReceipt(s, s')
    ensures Grows(s, s')
    ensures Inv(s) ==> Inv(s')
  {}

  lemma ClearEventKeeps(s: State, s': State)
    requires ClearEvent(s, s')
    ensures Grows(s, s')
    ensures Inv(s) ==> Inv(s')
  {}

  lemma ResetStateKeeps(s: State, s': State)
    requires ResetState(s, s')
    ensures Grows(s, s')
    ensures Inv(s) ==> Inv(s')
  {
    if Inv(s) {
      ResetFiles(s, s');
      ResetResolved(s, s');
      if s.note.Some? { ResetSettled(s, s'); } else { ResetAstray(s, s'); }
    }
  }

  lemma SettleKeeps(s: State, b: Binding, s': State)
    requires Settle(s, b, s')
    ensures Grows(s, s')
    ensures Inv(s) ==> Inv(s')
  {
    if Inv(s) { SettleFiles(s, b, s'); SettleSettled(s, b, s'); }
  }

  lemma StartStepKeeps(s: State, s': State)
    requires StartStep(s, s')
    ensures Grows(s, s')
    ensures Inv(s) ==> Inv(s')
  {
    if b: Binding :| StartSettling(s, b, s') { StartSettlingKeeps(s, b, s'); }
    else if b: Binding :| SettleAtStart(s, b, s') { SettleAtStartKeeps(s, b, s'); }
    else if StartClean(s, s') { StartCleanKeeps(s, s'); }
    else if b: Option<Binding> :| Open(s, b, s') { OpenKeeps(s, b, s'); }
    else if Stop(s, s') { StopKeeps(s, s'); }
  }

  lemma CallbackStepKeeps(s: State, s': State)
    requires CallbackStep(s, s')
    ensures Grows(s, s')
    ensures Inv(s) ==> Inv(s')
  {
    if t: nat, b: Binding, r: Record :| Receive(s, t, b, r, s') { ReceiveKeeps(s, t, b, r, s'); }
    else if t: nat, needs: bool :| RecordFirst(s, t, needs, s') { RecordFirstKeeps(s, t, needs, s'); }
    else if t: nat :| ReplaySame(s, t, s') { ReplaySameKeeps(s, t, s'); }
    else if t: nat :| LatchFault(s, t, s') { LatchFaultKeeps(s, t, s'); }
    else if t: nat :| RaiseFault(s, t, s') { RaiseFaultKeeps(s, t, s'); }
    else if t: nat :| Notify(s, t, s') { NotifyKeeps(s, t, s'); }
  }

  lemma LoopStepKeeps(s: State, s': State)
    requires LoopStep(s, s')
    ensures Grows(s, s')
    ensures Inv(s) ==> Inv(s')
  {
    if b: Binding :| StartPublish(s, b, s') { StartPublishKeeps(s, b, s'); }
    else if reached: bool, returned: bool :| Send(s, reached, returned, s') { SendKeeps(s, reached, returned, s'); }
    else if WriteReceipt(s, s') { WriteReceiptKeeps(s, s'); }
    else if ClearEvent(s, s') { ClearEventKeeps(s, s'); }
    else if ResetState(s, s') { ResetStateKeeps(s, s'); }
    else if b: Binding :| Settle(s, b, s') { SettleKeeps(s, b, s'); }
  }

  // ----- Every action keeps what holds unless a race occurs

  lemma StartSettlingRaces(s: State, b: Binding, s': State)
    requires Inv(s) && StartSettling(s, b, s')
    ensures WakeOk(s) && !InGap(s') ==> WakeOk(s')
    ensures NoneSkipped(s) && !InGap(s') ==> NoneSkipped(s')
    ensures NoneAstray(s) && !InGap(s') && !StrayRecorded(s, s') ==> NoneAstray(s')
  {}

  lemma SettleAtStartRaces(s: State, b: Binding, s': State)
    requires Inv(s) && SettleAtStart(s, b, s')
    ensures WakeOk(s) && !InGap(s') ==> WakeOk(s')
    ensures NoneSkipped(s) && !InGap(s') ==> NoneSkipped(s')
    ensures NoneAstray(s) && !InGap(s') && !StrayRecorded(s, s') ==> NoneAstray(s')
  {
    MarkerSettles(s.disk, b);
  }

  lemma StartCleanRaces(s: State, s': State)
    requires Inv(s) && StartClean(s, s')
    ensures WakeOk(s) && !InGap(s') ==> WakeOk(s')
    ensures NoneSkipped(s) && !InGap(s') ==> NoneSkipped(s')
    ensures NoneAstray(s) && !InGap(s') && !StrayRecorded(s, s') ==> NoneAstray(s')
  {}

  lemma OpenRaces(s: State, b: Option<Binding>, s': State)
    requires Inv(s) && Open(s, b, s')
    ensures WakeOk(s) && !InGap(s') ==> WakeOk(s')
    ensures NoneSkipped(s) && !InGap(s') ==> NoneSkipped(s')
    ensures NoneAstray(s) && !InGap(s') && !StrayRecorded(s, s') ==> NoneAstray(s')
  {}

  lemma StopRaces(s: State, s': State)
    requires Inv(s) && Stop(s, s')
    ensures WakeOk(s) && !InGap(s') ==> WakeOk(s')
    ensures NoneSkipped(s) && !InGap(s') ==> NoneSkipped(s')
    ensures NoneAstray(s) && !InGap(s') && !StrayRecorded(s, s') ==> NoneAstray(s')
  {}

  lemma ReceiveRaces(s: State, t: nat, b: Binding, r: Record, s': State)
    requires Inv(s) && Receive(s, t, b, r, s')
    ensures WakeOk(s) && !InGap(s') ==> WakeOk(s')
    ensures NoneSkipped(s) && !InGap(s') ==> NoneSkipped(s')
    ensures NoneAstray(s) && !InGap(s') && !StrayRecorded(s, s') ==> NoneAstray(s')
  {}

  lemma RecordFirstRaces(s: State, t: nat, needs: bool, s': State)
    requires Inv(s) && RecordFirst(s, t, needs, s')
    ensures WakeOk(s) && !InGap(s') ==> WakeOk(s')
    ensures NoneSkipped(s) && !InGap(s') ==> NoneSkipped(s')
    ensures NoneAstray(s) && !InGap(s') && !StrayRecorded(s, s') ==> NoneAstray(s')
  {
    RecordingResolves(s.disk, s.threads[t].binding, ReceiptOf(s.threads[t].result, needs));
  }

  lemma ReplaySameRaces(s: State, t: nat, s': State)
    requires Inv(s) && ReplaySame(s, t, s')
    ensures WakeOk(s) && !InGap(s') ==> WakeOk(s')
    ensures NoneSkipped(s) && !InGap(s') ==> NoneSkipped(s')
    ensures NoneAstray(s) && !InGap(s') && !StrayRecorded(s, s') ==> NoneAstray(s')
  {}

  lemma LatchFaultRaces(s: State, t: nat, s': State)
    requires Inv(s) && LatchFault(s, t, s')
    ensures WakeOk(s) && !InGap(s') ==> WakeOk(s')
    ensures NoneSkipped(s) && !InGap(s') ==> NoneSkipped(s')
    ensures NoneAstray(s) && !InGap(s') && !StrayRecorded(s, s') ==> NoneAstray(s')
  {}

  lemma RaiseFaultRaces(s: State, t: nat, s': State)
    requires Inv(s) && RaiseFault(s, t, s')
    ensures WakeOk(s) && !InGap(s') ==> WakeOk(s')
    ensures NoneSkipped(s) && !InGap(s') ==> NoneSkipped(s')
    ensures NoneAstray(s) && !InGap(s') && !StrayRecorded(s, s') ==> NoneAstray(s')
  {}

  lemma NotifyRaces(s: State, t: nat, s': State)
    requires Inv(s) && Notify(s, t, s')
    ensures WakeOk(s) && !InGap(s') ==> WakeOk(s')
    ensures NoneSkipped(s) && !InGap(s') ==> NoneSkipped(s')
    ensures NoneAstray(s) && !InGap(s') && !StrayRecorded(s, s') ==> NoneAstray(s')
  {}

  lemma StartPublishRaces(s: State, b: Binding, s': State)
    requires Inv(s) && StartPublish(s, b, s')
    ensures WakeOk(s) && !InGap(s') ==> WakeOk(s')
    ensures NoneSkipped(s) && !InGap(s') ==> NoneSkipped(s')
    ensures NoneAstray(s) && !InGap(s') && !StrayRecorded(s, s') ==> NoneAstray(s')
  {}

  lemma SendRaces(s: State, reached: bool, returned: bool, s': State)
    requires Inv(s) && Send(s, reached, returned, s')
    ensures WakeOk(s) && !InGap(s') ==> WakeOk(s')
    ensures NoneSkipped(s) && !InGap(s') ==> NoneSkipped(s')
    ensures NoneAstray(s) && !InGap(s') && !StrayRecorded(s, s') ==> NoneAstray(s')
  {}

  lemma WriteReceiptRaces(s: State, s': State)
    requires Inv(s) && WriteReceipt(s, s')
    ensures WakeOk(s) && !InGap(s') ==> WakeOk(s')
    ensures NoneSkipped(s) && !InGap(s') ==> NoneSkipped(s')
    ensures NoneAstray(s) && !InGap(s') && !StrayRecorded(s, s') ==> NoneAstray(s')
  {}

  lemma ClearEventRaces(s: State, s': State)
    requires Inv(s) && ClearEvent(s, s')
    ensures WakeOk(s) && !InGap(s') ==> WakeOk(s')
    ensures NoneSkipped(s) && !InGap(s') ==> NoneSkipped(s')
    ensures NoneAstray(s) && !InGap(s') && !StrayRecorded(s, s') ==> NoneAstray(s')
  {}

  lemma ResetStateRaces(s: State, s': State)
    requires Inv(s) && ResetState(s, s')
    ensures WakeOk(s) && !InGap(s') ==> WakeOk(s')
    ensures NoneSkipped(s) && !InGap(s') ==> NoneSkipped(s')
    ensures NoneAstray(s) && !InGap(s') && !StrayRecorded(s, s') ==> NoneAstray(s')
  {
    if NoneSkipped(s) {
      var c := s.awaited.value;
      assert ResultOk(s.cfg, c, s.disk.results[c]);
      assert s.disk.results[c].needs || c !in Unsettled(s.disk);
    }
  }

  lemma SettleRaces(s: State, b: Binding, s': State)
    requires Inv(s) && Settle(s, b, s')
    ensures WakeOk(s) && !InGap(s') ==> WakeOk(s')
    ensures NoneSkipped(s) && !InGap(s') ==> NoneSkipped(s')
    ensures NoneAstray(s) && !InGap(s') && !StrayRecorded(s, s') ==> NoneAstray(s')
  {
    MarkerSettles(s.disk, b);
  }

  lemma StartStepRaces(s: State, s': State)
    requires Inv(s) && StartStep(s, s')
    ensures WakeOk(s) && !InGap(s') ==> WakeOk(s')
    ensures NoneSkipped(s) && !InGap(s') ==> NoneSkipped(s')
    ensures NoneAstray(s) && !InGap(s') && !StrayRecorded(s, s') ==> NoneAstray(s')
  {
    if b: Binding :| StartSettling(s, b, s') { StartSettlingRaces(s, b, s'); }
    else if b: Binding :| SettleAtStart(s, b, s') { SettleAtStartRaces(s, b, s'); }
    else if StartClean(s, s') { StartCleanRaces(s, s'); }
    else if b: Option<Binding> :| Open(s, b, s') { OpenRaces(s, b, s'); }
    else if Stop(s, s') { StopRaces(s, s'); }
  }

  lemma CallbackStepRaces(s: State, s': State)
    requires Inv(s) && CallbackStep(s, s')
    ensures WakeOk(s) && !InGap(s') ==> WakeOk(s')
    ensures NoneSkipped(s) && !InGap(s') ==> NoneSkipped(s')
    ensures NoneAstray(s) && !InGap(s') && !StrayRecorded(s, s') ==> NoneAstray(s')
  {
    if t: nat, b: Binding, r: Record :| Receive(s, t, b, r, s') { ReceiveRaces(s, t, b, r, s'); }
    else if t: nat, needs: bool :| RecordFirst(s, t, needs, s') { RecordFirstRaces(s, t, needs, s'); }
    else if t: nat :| ReplaySame(s, t, s') { ReplaySameRaces(s, t, s'); }
    else if t: nat :| LatchFault(s, t, s') { LatchFaultRaces(s, t, s'); }
    else if t: nat :| RaiseFault(s, t, s') { RaiseFaultRaces(s, t, s'); }
    else if t: nat :| Notify(s, t, s') { NotifyRaces(s, t, s'); }
  }

  lemma LoopStepRaces(s: State, s': State)
    requires Inv(s) && LoopStep(s, s')
    ensures WakeOk(s) && !InGap(s') ==> WakeOk(s')
    ensures NoneSkipped(s) && !InGap(s') ==> NoneSkipped(s')
    ensures NoneAstray(s) && !InGap(s') && !StrayRecorded(s, s') ==> NoneAstray(s')
  {
    if b: Binding :| StartPublish(s, b, s') { StartPublishRaces(s, b, s'); }
    else if reached: bool, returned: bool :| Send(s, reached, returned, s') { SendRaces(s, reached, returned, s'); }
    else if WriteReceipt(s, s') { WriteReceiptRaces(s, s'); }
    else if ClearEvent(s, s') { ClearEventRaces(s, s'); }
    else if ResetState(s, s') { ResetStateRaces(s, s'); }
    else if b: Binding :| Settle(s, b, s') { SettleRaces(s, b, s'); }
  }
}
