// The fast-live source as a transition system: one main loop that publishes an
// order, waits for its result and for its settlement, beside result callbacks
// that record results durably and wake the loop; any step may be the last one
// before the process dies.

module SourceProtocol {
  import opened Common
  import opened ResultRecord
  import Runs

  // requests is the table of order intents: the one request each was created with.
  datatype Config = Config(continuous: bool, requests: map<string, string>)

  // A recorded result: what later deliveries of the same result are compared with.
  datatype Receipt = Receipt(status: string, consumed: bool, hash: Record, needs: bool)

  datatype Disk = Disk(
    receipts: set<Binding>,           // one publication receipt per order
    results: map<Binding, Receipt>,   // results/
    settlements: set<Binding>,        // settlements/, named like the result receipt
    fault: bool)                      // RESULT_INTEGRITY_FAULT.json

  // What a callback leaves in result_state for the main loop.
  datatype Note = Note(consumed: bool, needs: bool, intent: string)

  datatype Pc =
    | Down
    | BootSettling(intent: string, thenExit: bool)
    | Opening                // start-up scans done, subscription not open yet
    | Polling                // nothing awaited; the loop may publish
    | Publishing(order: Binding)
    | Published(order: Binding) // the publish call returned, the receipt is not written yet
    | Waiting
    | Cleared                // event cleared, result_state not reset yet
    | Settling(intent: string)

  datatype Stage = Received | Recorded | Failing

  datatype Thread = Thread(binding: Binding, result: Record, stage: Stage, needs: bool)

  datatype State = State(
    cfg: Config,
    disk: Disk,
    // volatile
    pc: Pc,
    awaited: Option<Binding>,
    event: bool,
    note: Option<Note>,
    faultEvent: bool,
    threads: map<nat, Thread>,
    // history
    sent: set<Binding>,      // orders whose message may have reached the topic
    skipped: set<Binding>,   // orders whose wait ended, or was not resumed, without a result
    astray: set<Binding>)    // recorded results nobody in the process will settle

  function Init(cfg: Config): State {
    State(cfg, Disk({}, map[], {}, false), Down, None, false, None, false, map[], {}, {}, {})
  }

  // ----- What a start reads off the disk

  function Unresolved(d: Disk): set<Binding> {
    d.receipts - d.results.Keys
  }

  function Unsettled(d: Disk): set<Binding> {
    set b | b in d.results && d.results[b].needs && b !in d.settlements
  }

  predicate AttemptConsumed(d: Disk) {
    exists b :: b in d.receipts && b in d.results && d.results[b].consumed
  }

  predicate OneShotDone(s: State) {
    !s.cfg.continuous && AttemptConsumed(s.disk)
  }

  predicate Subscribed(pc: Pc) {
    !pc.Down? && !pc.BootSettling? && !pc.Opening?
  }

  // The replay check of result_callback.
  predicate SameResult(filed: Receipt, r: Record) {
    filed.status == StatusOf(r) && filed.consumed == Consumed(r) && filed.hash == Stable(r)
  }

  function ReceiptOf(r: Record, needs: bool): Receipt {
    Receipt(StatusOf(r), Consumed(r), Stable(r), needs)
  }

  // ----- Start-up: everything before the subscription opens

  predicate StartSettling(s: State, b: Binding, s': State) {
    && s.pc.Down? && !s.disk.fault && b in Unsettled(s.disk)
    && s' == s.(pc := BootSettling(b.intent, OneShotDone(s)))
  }

  predicate SettleAtStart(s: State, b: Binding, s': State) {
    && s.pc.BootSettling? && b in s.disk.results && s.disk.results[b].needs && b.intent == s.pc.intent
    && s' == s.(disk := s.disk.(settlements := s.disk.settlements + {b}),
                pc := if s.pc.thenExit then Down else Opening)
  }

  predicate StartClean(s: State, s': State) {
    && s.pc.Down? && !s.disk.fault && Unsettled(s.disk) == {} && !OneShotDone(s)
    && s' == s.(pc := Opening)
  }

  // Resume the wait for an unresolved publication, or start polling.
  predicate Open(s: State, b: Option<Binding>, s': State) {
    && s.pc.Opening?
    && (if b.Some? then b.value in Unresolved(s.disk) else Unresolved(s.disk) == {})
    && s' == s.(pc := if b.Some? then Waiting else Polling, awaited := b,
                skipped := Unresolved(s.disk) - (if b.Some? then {b.value} else {}),
                astray := Unsettled(s.disk))
  }

  // ----- Result callbacks

  predicate Receive(s: State, t: nat, b: Binding, r: Record, s': State) {
    && Subscribed(s.pc) && t !in s.threads && b in s.sent && Names(r, b)
    && s' == s.(threads := s.threads[t := Thread(b, r, Received, false)])
  }

  // First recording: the intent's own request, and settlement only after an attempt.
  predicate RecordFirst(s: State, t: nat, needs: bool, s': State) {
    && t in s.threads && s.threads[t].stage.Received? && s.threads[t].binding !in s.disk.results
    && var b, r := s.threads[t].binding, s.threads[t].result;
    && b.intent in s.cfg.requests && s.cfg.requests[b.intent] == b.request
    && (needs ==> Consumed(r) && StatusOf(r) == "accepted")
    && s' == s.(disk := s.disk.(results := s.disk.results[b := ReceiptOf(r, needs)]),
                threads := s.threads[t := s.threads[t].(stage := Recorded, needs := needs)],
                astray := s.astray + if needs && s.awaited != Some(b) then {b} else {})
  }

  predicate ReplaySame(s: State, t: nat, s': State) {
    && t in s.threads && s.threads[t].stage.Received? && s.threads[t].binding in s.disk.results
    && SameResult(s.disk.results[s.threads[t].binding], s.threads[t].result)
    && s' == s.(threads := s.threads[t := s.threads[t].(stage := Recorded,
                                                       needs := s.disk.results[s.threads[t].binding].needs)])
  }

  // A changed replay, or any other exception: the fault file is written first.
  predicate LatchFault(s: State, t: nat, s': State) {
    && t in s.threads && !s.threads[t].stage.Failing?
    && s' == s.(disk := s.disk.(fault := true), threads := s.threads[t := s.threads[t].(stage := Failing)])
  }

  predicate RaiseFault(s: State, t: nat, s': State) {
    && t in s.threads && s.threads[t].stage.Failing?
    && s' == s.(faultEvent := true, threads := s.threads - {t})
  }

  // Only the awaited result wakes the loop.
  predicate Notify(s: State, t: nat, s': State) {
    && t in s.threads && s.threads[t].stage.Recorded?
    && var h := s.threads[t];
       var current := s.awaited == Some(h.binding);
       s' == s.(threads := s.threads - {t},
                event := s.event || current,
                note := if current then Some(Note(Consumed(h.result), h.needs, h.binding.intent)) else s.note)
  }

  // ----- The main loop

  predicate StartPublish(s: State, b: Binding, s': State) {
    && s.pc.Polling? && !s.faultEvent
    && s' == s.(pc := Publishing(b), awaited := Some(b))
  }

  // A publish that fails ends the process, although the message may have gone out.
  predicate Send(s: State, reached: bool, returned: bool, s': State) {
    && s.pc.Publishing? && (returned ==> reached)
    && var s1 := s.(sent := s.sent + if reached then {s.pc.order} else {});
       s' == if returned then s1.(pc := Published(s.pc.order)) else Stopped(s1)
  }

  predicate WriteReceipt(s: State, s': State) {
    && s.pc.Published?
    && s' == s.(disk := s.disk.(receipts := s.disk.receipts + {s.pc.order}), pc := Waiting)
  }

  predicate ClearEvent(s: State, s': State) {
    && s.pc.Waiting? && s.event
    && s' == s.(event := false, pc := Cleared)
  }

  // What the loop stops waiting for; without a note it goes on as if nothing were due.
  function Unawaited(s: State): State {
    var gone := if s.awaited.Some? then {s.awaited.value} else {};
    s.(awaited := None, note := None,
       skipped := s.skipped + (gone - s.disk.results.Keys),
       astray := s.astray + if s.note.None? then gone * Unsettled(s.disk) else {})
  }

  predicate ResetState(s: State, s': State) {
    && s.pc.Cleared?
    && var n := if s.note.Some? then s.note.value else Note(false, false, "");
       var s1 := Unawaited(s);
       s' == if n.consumed && n.needs then s1.(pc := Settling(n.intent))
             else if n.consumed && !s.cfg.continuous then Stopped(s1)
             else s1.(pc := Polling)
  }

  predicate Settle(s: State, b: Binding, s': State) {
    && s.pc.Settling? && b in s.disk.results && s.disk.results[b].needs && b.intent == s.pc.intent
    && s' == s.(disk := s.disk.(settlements := s.disk.settlements + {b}), pc := Polling)
  }

  // Every way out of the process: a crash, an exception, an expiry, a halt on a fault.
  function Stopped(s: State): State {
    s.(pc := Down, awaited := None, event := false, note := None, faultEvent := false, threads := map[])
  }

  predicate Stop(s: State, s': State) {
    s' == Stopped(s)
  }

  // ----- Runs

  ghost predicate StartStep(s: State, s': State) {
    || (exists b :: StartSettling(s, b, s'))
    || (exists b :: SettleAtStart(s, b, s'))
    || StartClean(s, s')
    || (exists b :: Open(s, b, s'))
    || Stop(s, s')
  }

  ghost predicate CallbackStep(s: State, s': State) {
    || (exists t, b, r :: Receive(s, t, b, r, s'))
    || (exists t, needs :: RecordFirst(s, t, needs, s'))
    || (exists t :: ReplaySame(s, t, s'))
    || (exists t :: LatchFault(s, t, s'))
    || (exists t :: RaiseFault(s, t, s'))
    || (exists t :: Notify(s, t, s'))
  }

  ghost predicate LoopStep(s: State, s': State) {
    || (exists b :: StartPublish(s, b, s'))
    || (exists reached, returned :: Send(s, reached, returned, s'))
    || WriteReceipt(s, s')
    || ClearEvent(s, s')
    || ResetState(s, s')
    || (exists b :: Settle(s, b, s'))
  }

  ghost predicate Step(s: State, s': State) {
    StartStep(s, s') || CallbackStep(s, s') || LoopStep(s, s')
  }

  ghost predicate IsRun(run: seq<State>) {
    Runs.IsPath(Step, run) && run[0] == Init(run[0].cfg)
  }

  ghost predicate Reaches(s: State, s': State) {
    Runs.Reaches(Step, s, s')
  }
}
