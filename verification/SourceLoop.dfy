// The source as it runs: start-up, the result callback and the pieces of the main
// loop, over mutable fields. Every method is a stretch of a protocol run, so what
// SourceTheorems says about runs holds of this code.

module SourceLoop {
  import opened Common
  import opened ResultRecord
  import opened SourceProtocol
  import opened SourcePaths
  import S = SourceScans
  import Runs

  class Source {
    const cfg: Config
    // durable
    var receipts: set<Binding>
    var results: map<Binding, Receipt>
    var settlements: set<Binding>
    var fault: bool
    // volatile
    var running: bool
    var waitingForResult: bool
    var settlementIntent: Option<string>
    var awaited: Option<Binding>
    var event: bool
    var note: Option<Note>
    var faultEvent: bool
    // the protocol state this object is in
    ghost var st: State

    ghost predicate Mirrors()
      reads this
    {
      && st.cfg == cfg && st.disk == Disk(receipts, results, settlements, fault)
      && st.awaited == awaited && st.event == event && st.note == note && st.faultEvent == faultEvent
      && Reaches(Init(cfg), st)
    }

    // The loop stands at its top, or the process is down.
    ghost predicate Valid()
      reads this
    {
      && Mirrors()
      && (!running ==> awaited.None? && !event && note.None? && settlementIntent.None?)
      && st.pc == if !running then Down
                  else if settlementIntent.Some? then Settling(settlementIntent.value)
                  else if waitingForResult then Waiting
                  else Polling
    }

    constructor (cfg: Config)
      ensures Valid() && this.cfg == cfg && st == Init(cfg)
    {
      this.cfg := cfg;
      receipts, results, settlements, fault := {}, map[], {}, false;
      running, waitingForResult, settlementIntent := false, false, None;
      awaited, event, note, faultEvent := None, false, None, false;
      st := Init(cfg);
      new;
      Runs.ReachesSelf(Step, st);
    }

    // The process ends: every volatile field is lost.
    method Exit()
      requires Mirrors()
      modifies this`st, this`running, this`waitingForResult, this`settlementIntent,
               this`awaited, this`event, this`note, this`faultEvent
      ensures Valid() && !running && st == Stopped(old(st))
    {
      StopOn(Init(cfg), st, Stopped(st));
      st := Stopped(st);
      Forget();
    }

    // ----- Result callback

    // The part under the record lock. recordable says whether recording in the
    // ledger succeeds, needs whether the official record asks for settlement.
    method RecordResult(ghost t: nat, b: Binding, r: Record, recordable: bool, needs: bool)
      returns (ok: bool, settle: bool)
      requires Mirrors() && t in st.threads && st.threads[t] == Thread(b, r, Received, false)
      requires recordable ==> b.intent in cfg.requests && cfg.requests[b.intent] == b.request
                              && (needs ==> Consumed(r) && StatusOf(r) == "accepted")
      modifies this`st, this`results, this`fault
      ensures Mirrors() && st.pc == old(st.pc) && st.sent == old(st.sent)
      ensures ok <==> if b in old(results) then SameResult(old(results)[b], r) else recordable
      ensures results == if b !in old(results) && recordable then old(results)[b := ReceiptOf(r, needs)]
                         else old(results)
      ensures fault == (old(fault) || !ok)
      ensures ok ==> b in results && settle == results[b].needs
      ensures t in st.threads && st.threads[t] == Thread(b, r, if ok then Recorded else Failing, settle)
    {
      settle := false;
      if b in results {
        if SameResult(results[b], r) {
          settle := results[b].needs;
          ghost var s1 := st.(threads := st.threads[t := Thread(b, r, Recorded, settle)]);
          ReplaySameOn(Init(cfg), st, t, s1);
          st := s1;
          return true, settle;
        }
      } else if recordable {
        settle := needs;
        results := results[b := ReceiptOf(r, needs)];
        ghost var s1 := st.(disk := st.disk.(results := results),
                            threads := st.threads[t := Thread(b, r, Recorded, needs)],
                            astray := st.astray + if needs && awaited != Some(b) then {b} else {});
        RecordFirstOn(Init(cfg), st, t, needs, s1);
        st := s1;
        return true, settle;
      }
      fault := true;
      ghost var s1 := st.(disk := st.disk.(fault := true), threads := st.threads[t := Thread(b, r, Failing, false)]);
      LatchFaultOn(Init(cfg), st, t, s1);
      st := s1;
      return false, false;
    }

    // The part under the state lock: only the awaited result wakes the loop.
    method NotifyLoop(ghost t: nat, b: Binding, r: Record, settle: bool)
      requires Mirrors() && t in st.threads && st.threads[t] == Thread(b, r, Recorded, settle)
      modifies this`st, this`event, this`note
      ensures Mirrors() && st.pc == old(st.pc) && st.sent == old(st.sent)
      ensures if awaited == Some(b) then event && note == Some(Note(Consumed(r), settle, b.intent))
              else event == old(event) && note == old(note)
    {
      if awaited == Some(b) {
        event := true;
        note := Some(Note(Consumed(r), settle, b.intent));
      }
      ghost var s2 := st.(threads := st.threads - {t}, event := event, note := note);
      NotifyOn(Init(cfg), st, t, s2);
      st := s2;
    }

    method RaiseFaultEvent(ghost t: nat)
      requires Mirrors() && t in st.threads && st.threads[t].stage.Failing?
      modifies this`st, this`faultEvent
      ensures Mirrors() && st.pc == old(st.pc) && st.sent == old(st.sent)
      ensures faultEvent
    {
      faultEvent := true;
      ghost var s2 := st.(faultEvent := true, threads := st.threads - {t});
      RaiseFaultOn(Init(cfg), st, t, s2);
      st := s2;
    }

    ghost method Deliver(t: nat, b: Binding, r: Record)
      requires Mirrors() && Subscribed(st.pc) && t !in st.threads && b in st.sent && Names(r, b)
      modifies this`st
      ensures Mirrors() && st.pc == old(st.pc) && st.sent == old(st.sent)
      ensures t in st.threads && st.threads[t] == Thread(b, r, Received, false)
    {
      var s1 := st.(threads := st.threads[t := Thread(b, r, Received, false)]);
      ReceiveOn(Init(cfg), st, t, b, r, s1);
      st := s1;
    }

    // result_callback: record or compare, then wake the loop if it waits for this
    // order; anything unexpected latches a fault and nacks.
    method ResultCallback(ghost t: nat, b: Binding, r: Record, recordable: bool, needs: bool) returns (acked: bool)
      requires Mirrors() && Subscribed(st.pc) && t !in st.threads && b in st.sent && Names(r, b)
      requires recordable ==> b.intent in cfg.requests && cfg.requests[b.intent] == b.request
                              && (needs ==> Consumed(r) && StatusOf(r) == "accepted")
      modifies this`st, this`results, this`fault, this`event, this`note, this`faultEvent
      ensures Mirrors() && st.sent == old(st.sent) && st.pc == old(st.pc)
      ensures acked <==> if b in old(results) then SameResult(old(results)[b], r) else recordable
      ensures results == if b !in old(results) && recordable then old(results)[b := ReceiptOf(r, needs)]
                         else old(results)
      ensures fault == (old(fault) || !acked) && faultEvent == (old(faultEvent) || !acked)
      ensures if acked && awaited == Some(b)
              then event && note == Some(Note(Consumed(r), results[b].needs, b.intent))
              else event == old(event) && note == old(note)
    {
      Deliver(t, b, r);
      var settle;
      acked, settle := RecordResult(t, b, r, recordable, needs);
      if acked {
        NotifyLoop(t, b, r, settle);
      } else {
        RaiseFaultEvent(t);
      }
    }

    // ----- The main loop

    // The publisher answers, or the exception ends the process although the message
    // may have gone out.
    method SendOrder(b: Binding, reached: bool, returned: bool)
      requires Mirrors() && st.pc == Publishing(b) && (returned ==> reached)
      modifies this`st
      ensures st == (if returned then old(st).(pc := Published(b), sent := old(st.sent) + {b})
                     else Stopped(old(st).(sent := old(st.sent) + if reached then {b} else {})))
      ensures Reaches(Init(cfg), st)
    {
      ghost var s2 := st.(sent := st.sent + if reached then {b} else {});
      ghost var s3 := if returned then s2.(pc := Published(b)) else Stopped(s2);
      SendOn(Init(cfg), st, reached, returned, s3);
      st := s3;
    }

    method WritePublicationReceipt(b: Binding)
      requires Mirrors() && st.pc == Published(b)
      modifies this`st, this`receipts
      ensures Mirrors() && receipts == old(receipts) + {b} && st.pc.Waiting? && st.sent == old(st.sent)
    {
      receipts := receipts + {b};
      ghost var s4 := st.(disk := st.disk.(receipts := receipts), pc := Waiting);
      WriteReceiptOn(Init(cfg), st, s4);
      st := s4;
    }

    // Publish an order and write its receipt. A fault latched since the top of the loop, or
    // a publish that fails, ends the process.
    method PublishOrder(b: Binding, reached: bool, returned: bool)
      requires Valid() && running && !waitingForResult && settlementIntent.None? && (returned ==> reached)
      modifies this`st, this`receipts, this`running, this`waitingForResult, this`settlementIntent,
               this`awaited, this`event, this`note, this`faultEvent
      ensures Valid()
      ensures running <==> returned && !old(faultEvent)
      ensures running ==>
                waitingForResult && settlementIntent.None? && awaited == Some(b) && receipts == old(receipts) + {b}
      ensures !running ==> receipts == old(receipts)
      ensures st.sent == old(st.sent) + if reached && !old(faultEvent) then {b} else {}
    {
      if faultEvent {
        Exit();
        return;
      }
      awaited := Some(b);
      ghost var s1 := st.(pc := Publishing(b), awaited := Some(b));
      StartPublishOn(Init(cfg), st, b, s1);
      st := s1;
      SendOrder(b, reached, returned);
      if returned {
        WritePublicationReceipt(b);
        waitingForResult := true;
      } else {
        Forget();
      }
    }

    // The volatile fields of a process that is gone.
    method Forget()
      modifies this`running, this`waitingForResult, this`settlementIntent,
               this`awaited, this`event, this`note, this`faultEvent
      ensures !running && !waitingForResult && settlementIntent.None?
      ensures awaited.None? && !event && note.None? && !faultEvent
    {
      running, waitingForResult, settlementIntent := false, false, None;
      awaited, event, note, faultEvent := None, false, None, false;
    }

    method ClearTheEvent()
      requires Mirrors() && st.pc.Waiting? && event
      modifies this`st, this`event
      ensures Mirrors() && st == old(st).(event := false, pc := Cleared)
    {
      event := false;
      ghost var s1 := st.(event := false, pc := Cleared);
      ClearEventOn(Init(cfg), st, s1);
      st := s1;
    }

    // Read what the callback left and reset it, under the state lock.
    method ResetResultState() returns (n: Note)
      requires Mirrors() && st.pc.Cleared?
      modifies this`st, this`awaited, this`note
      ensures n == (if old(note).Some? then old(note).value else Note(false, false, ""))
      ensures awaited.None? && note.None? && Reaches(Init(cfg), st)
      ensures var s1 := Unawaited(old(st));
              st == if n.consumed && n.needs then s1.(pc := Settling(n.intent))
                    else if n.consumed && !cfg.continuous then Stopped(s1)
                    else s1.(pc := Polling)
    {
      n := if note.Some? then note.value else Note(false, false, "");
      awaited, note := None, None;
      ghost var s1 := Unawaited(st);
      ghost var s2 := if n.consumed && n.needs then s1.(pc := Settling(n.intent))
                      else if n.consumed && !cfg.continuous then Stopped(s1)
                      else s1.(pc := Polling);
      ResetStateOn(Init(cfg), st, s2);
      st := s2;
    }

    // The waiting branch: nothing until the event is set; then clear it, take what
    // the callback left, reset, and settle, stop or poll.
    method TakeResult() returns (taken: bool)
      requires Valid() && running && waitingForResult && settlementIntent.None?
      modifies this`st, this`running, this`waitingForResult, this`settlementIntent,
               this`awaited, this`event, this`note, this`faultEvent
      ensures Valid() && taken == old(event) && st.sent == old(st.sent)
      ensures !taken ==> st == old(st) && running && waitingForResult
      ensures taken ==> awaited.None? && !event && note.None?
      ensures var n := if old(note).Some? then old(note).value else Note(false, false, "");
              taken ==>
                && (running <==> !n.consumed || n.needs || cfg.continuous)
                && settlementIntent == (if n.consumed && n.needs then Some(n.intent) else None)
                && (settlementIntent.None? ==> !waitingForResult)
    {
      if !event { return false; }
      ClearTheEvent();
      var n := ResetResultState();
      if n.consumed && n.needs {
        settlementIntent := Some(n.intent);
      } else if n.consumed && !cfg.continuous {
        Forget();
      } else {
        waitingForResult := false;
      }
      return true;
    }

    // The settlement branch: keep asking until the position is settled.
    method SettlePosition(resultFiles: seq<Binding>, reports: seq<S.Settlement>) returns (ending: S.Ending)
      requires Valid() && running && settlementIntent.Some?
      requires forall b :: b in resultFiles <==> b in results
      modifies this
      ensures Valid() && receipts == old(receipts) && results == old(results) && fault == old(fault)
      ensures st.sent == old(st.sent)
      ensures ending == S.EndingOf(reports, exists b :: S.CarriesIntent(b, results, old(settlementIntent).value))
      ensures running <==> ending.Zero?
      ensures running ==> !waitingForResult && settlementIntent.None?
      ensures if ending.Zero? then exists b :: S.CarriesIntent(b, results, old(settlementIntent).value)
                                               && settlements == old(settlements) + {b}
              else settlements == old(settlements)
    {
      var after, marker;
      ending, after, marker :=
        S.SettleUntilTerminal(resultFiles, results, settlements, settlementIntent.value, reports);
      if !ending.Zero? {
        Exit();
        return;
      }
      assert S.CarriesIntent(marker.value, results, settlementIntent.value);
      TakeMarker(after, marker.value);
      settlementIntent, waitingForResult := None, false;
    }

    // The settlement marker is on disk.
    method TakeMarker(after: set<Binding>, ghost marker: Binding)
      requires Mirrors() && st.pc.Settling? && S.CarriesIntent(marker, results, st.pc.intent)
      requires after == settlements + {marker}
      modifies this`st, this`settlements
      ensures Mirrors() && settlements == after && st.pc.Polling? && st.sent == old(st.sent)
    {
      settlements := after;
      ghost var s1 := st.(disk := st.disk.(settlements := after), pc := Polling);
      SettleOn(Init(cfg), st, marker, s1);
      st := s1;
    }

    // One turn of the loop. order is the candidate that is ready to be published, if any;
    // expired says whether the authorization has run out, direct whether orders go out
    // without a human approval, where one with a receipt is not sent again.
    method Turn(order: Option<Binding>, direct: bool, reached: bool, returned: bool, expired: bool,
                resultFiles: seq<Binding>, reports: seq<S.Settlement>)
      requires Valid() && running && (returned ==> reached)
      requires forall b :: b in resultFiles <==> b in results
      modifies this
      ensures Valid() && results == old(results) && fault == old(fault)
      ensures old(faultEvent) ==> !running
      // only a loop that waits for nothing sends, and what it sends it then waits for
      ensures var polls := !old(faultEvent) && !old(waitingForResult) && old(settlementIntent).None?;
              var sends := polls && !expired && order.Some? && !(direct && order.value in old(receipts));
              && st.sent == old(st.sent) + (if sends && reached then {order.value} else {})
              && receipts == old(receipts) + (if sends && returned then {order.value} else {})
              && (sends && returned ==> running && waitingForResult && awaited == order)
      // settlement markers are written in the settlement branch alone
      ensures old(settlementIntent).None? || old(faultEvent) ==> settlements == old(settlements)
      ensures old(settlementIntent).Some? && !old(faultEvent) ==>
                (running <==>
                  S.EndingOf(reports, exists b :: S.CarriesIntent(b, results, old(settlementIntent).value)).Zero?)
    {
      if faultEvent {
        Exit();
      } else if settlementIntent.Some? {
        var _ := SettlePosition(resultFiles, reports);
      } else if waitingForResult {
        var _ := TakeResult();
      } else if expired {
        Exit();
      } else if order.Some? && direct && order.value in receipts {
        if !cfg.continuous { Exit(); }
      } else if order.Some? {
        PublishOrder(order.value, reached, returned);
      }
    }

    // ----- Start-up

    // Settle what a previous process left unsettled; opens says whether to go on.
    method SettleAtStartUp(resultFiles: seq<Binding>, reports: seq<S.Settlement>, intent: string, oneShotDone: bool)
      returns (opens: bool)
      requires Valid() && !running && !fault && oneShotDone == OneShotDone(st)
      requires forall b :: b in resultFiles <==> b in results
      requires exists b :: b in Unsettled(st.disk) && b.intent == intent
      modifies this
      ensures Mirrors() && receipts == old(receipts) && results == old(results) && fault == old(fault)
      ensures st.sent == old(st.sent)
      ensures if opens then st.pc.Opening? && !oneShotDone && !running && settlementIntent.None? && !event && note.None?
              else Valid() && !running
      ensures opens <==> !oneShotDone && S.EndingOf(reports, true).Zero?
      ensures (exists b :: S.CarriesIntent(b, results, intent) && settlements == old(settlements) + {b})
              || (settlements == old(settlements) && !opens)
    {
      ghost var b :| b in Unsettled(st.disk) && b.intent == intent;
      ghost var s1 := st.(pc := BootSettling(intent, oneShotDone));
      StartSettlingOn(Init(cfg), st, b, s1);
      st := s1;
      var ending, marker;
      ending, settlements, marker := S.SettleUntilTerminal(resultFiles, results, settlements, intent, reports);
      if !ending.Zero? {
        Exit();
        return false;
      }
      assert S.CarriesIntent(marker.value, results, intent);
      ghost var s2 := st.(disk := st.disk.(settlements := settlements), pc := if oneShotDone then Down else Opening);
      SettleAtStartOn(Init(cfg), st, marker.value, s2);
      st := s2;
      return !oneShotDone;
    }

    // main, up to the loop.
    method Start(files: seq<Binding>, resultFiles: seq<Binding>, reports: seq<S.Settlement>)
      requires Valid() && !running
      requires Listed(st.disk, files, resultFiles)
      modifies this
      ensures Valid() && receipts == old(receipts) && results == old(results) && fault == old(fault)
      ensures st.sent == old(st.sent)
      // it opens exactly if no fault is latched, a one-shot session is not over, and what
      // was left unsettled is settled first
      ensures running <==> !fault && !OneShotDone(old(st))
                           && (Unsettled(old(st).disk) == {} || S.EndingOf(reports, true).Zero?)
      ensures Unsettled(old(st).disk) == {} ==> settlements == old(settlements)
      ensures running ==> settlementIntent.None? && !event && note.None?
                          && (waitingForResult <==> Unresolved(st.disk) != {})
                          && (if waitingForResult then awaited.Some? && awaited.value in Unresolved(st.disk)
                              else awaited.None?)
    {
      if fault { return; }
      var start, pending := ScanAtStartUp(files, resultFiles);
      if pending != "" {
        var opens := SettleAtStartUp(resultFiles, reports, pending, start.SessionOver?);
        if !opens { return; }
      } else if start.SessionOver? {
        return;
      } else {
        ghost var s1 := st.(pc := Opening);
        StartCleanOn(Init(cfg), st, s1);
        st := s1;
      }
      OpenSubscription(start.waiting, start.awaited);
    }

    // The publication state, the pending settlement and the binding to wait for.
    method ScanAtStartUp(files: seq<Binding>, resultFiles: seq<Binding>) returns (start: S.StartUp, pending: string)
      requires Valid() && Listed(st.disk, files, resultFiles)
      ensures start.SessionOver? <==> OneShotDone(st)
      ensures !start.SessionOver? ==> start.Opens? && OpensFor(st.disk, start.waiting, start.awaited)
      ensures pending == "" <==> Unsettled(st.disk) == {}
      ensures pending != "" ==> exists b :: b in Unsettled(st.disk) && b.intent == pending
    {
      S.ScansReadTheDisk(st.disk, files, resultFiles);
      start := S.ScanAtStart(files, results, cfg.continuous);
      pending := S.ScanPendingSettlement(resultFiles, results, settlements);
      assert forall b :: b in Unsettled(st.disk) ==> b in resultFiles;
      assert forall b :: b in Unresolved(st.disk) ==> b in files;
    }

    // The awaited binding and the waiting flag come from the scans, then callbacks start.
    method OpenSubscription(waiting: bool, pending: Option<Binding>)
      requires Mirrors() && st.pc.Opening? && !running && settlementIntent.None? && !event && note.None?
      requires OpensFor(st.disk, waiting, pending)
      modifies this`st, this`running, this`waitingForResult, this`awaited
      ensures Valid() && running && st.sent == old(st.sent) && waitingForResult == waiting && awaited == pending
    {
      awaited, waitingForResult, running := pending, waiting, true;
      ghost var s1 := st.(pc := if awaited.Some? then Waiting else Polling, awaited := awaited,
                          skipped := Unresolved(st.disk) - (if awaited.Some? then {awaited.value} else {}),
                          astray := Unsettled(st.disk));
      OpenOn(Init(cfg), st, awaited, s1);
      st := s1;
    }
  }

  // The loop waits exactly if a publication is unresolved, and for one of those.
  ghost predicate OpensFor(d: Disk, waiting: bool, pending: Option<Binding>) {
    && (waiting <==> Unresolved(d) != {})
    && (if waiting then pending.Some? && pending.value in Unresolved(d) else pending.None?)
  }

  // Directory listings of the two receipt directories, with usable identifiers.
  ghost predicate Listed(d: Disk, files: seq<Binding>, resultFiles: seq<Binding>) {
    && (forall b :: b in files <==> b in d.receipts)
    && (forall b :: b in resultFiles <==> b in d.results)
    && (forall b :: b in d.receipts ==> S.Named(b) && S.TrimmedBinding(b))
    && (forall b :: b in d.results ==> S.Named(b) && S.TrimmedBinding(b))
  }
}
