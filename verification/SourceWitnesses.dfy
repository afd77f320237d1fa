// The two races of the source, from any state in which they can happen, and one run to
// such a state for each.

module SourceWitnesses {
  import opened Common
  import opened ResultRecord
  import opened SourceProtocol
  import opened SourcePaths
  import opened SourceSafety
  import T = SourceTheorems
  import Runs

  // ----- What the loop can do next

  // A publish that works, with its receipt.
  lemma Publishes(s0: State, s: State, b: Binding) returns (s': State)
    requires Reaches(s0, s) && s.pc.Polling? && !s.faultEvent
    ensures Reaches(s0, s')
    ensures s' == s.(pc := Waiting, awaited := Some(b), sent := s.sent + {b},
                     disk := s.disk.(receipts := s.disk.receipts + {b}))
  {
    var a1 := s.(pc := Publishing(b), awaited := Some(b));
    StartPublishOn(s0, s, b, a1);
    var a2 := a1.(pc := Published(b), sent := s.sent + {b});
    SendOn(s0, a1, true, true, a2);
    s' := a2.(disk := s.disk.(receipts := s.disk.receipts + {b}), pc := Waiting);
    WriteReceiptOn(s0, a2, s');
  }

  // The settlement of an intent the loop is settling, by a receipt that carries it.
  lemma Settles(s0: State, s: State, b: Binding) returns (s': State)
    requires Reaches(s0, s) && s.pc.Settling? && Carries(s.disk.results, b, s.pc.intent)
    ensures Reaches(s0, s')
    ensures s' == s.(pc := Polling, disk := s.disk.(settlements := s.disk.settlements + {b}))
  {
    s' := s.(pc := Polling, disk := s.disk.(settlements := s.disk.settlements + {b}));
    SettleOn(s0, s, b, s');
  }

  // What the loop waited for is reset; if it has to be settled, it is.
  lemma ResetsAndPolls(s0: State, s: State) returns (s': State)
    requires Reaches(s0, s) && Inv(s) && s.pc.Cleared?
    requires s.note.Some? ==> s.cfg.continuous || !s.note.value.consumed || s.note.value.needs
    ensures Reaches(s0, s') && s'.pc.Polling? && s'.event == s.event && s'.faultEvent == s.faultEvent
    ensures s'.note.None? && s'.awaited.None? && s'.disk.receipts == s.disk.receipts
    ensures s'.disk.results == s.disk.results
    ensures s'.sent == s.sent && s.disk.settlements <= s'.disk.settlements <= s.disk.settlements + {s.awaited.value}
    ensures s'.cfg == s.cfg && s'.threads == s.threads
  {
    var n := if s.note.Some? then s.note.value else Note(false, false, "");
    var s1 := Unawaited(s);
    if n.consumed && n.needs {
      var a := s1.(pc := Settling(n.intent));
      ResetStateOn(s0, s, a);
      s' := Settles(s0, a, s.awaited.value);
    } else {
      s' := s1.(pc := Polling);
      ResetStateOn(s0, s, s');
    }
  }

  lemma ReachedInv(cfg: Config, s: State)
    requires Reaches(Init(cfg), s)
    ensures Inv(s)
  {
    var run :| Runs.IsPath(Step, run) && run[0] == Init(cfg) && run[|run| - 1] == s;
    T.RunInv(run, |run| - 1);
  }

  // ----- A duplicate in the gap skips the result of whatever is published next

  predicate GoesOn(s: State, t: nat)
    requires t in s.threads
  {
    s.cfg.continuous || !Consumed(s.threads[t].result) || s.threads[t].needs
  }

  // Wherever the loop stands between clear and reset, if one more callback for the awaited
  // order is about to notify it, then whatever order without a result it publishes next, it
  // can poll again, free to publish, without that order's result.
  lemma GapSkipsTheNextResult(cfg: Config, s: State, t: nat, b: Binding) returns (s': State)
    requires Reaches(Init(cfg), s) && s.pc.Cleared? && !s.faultEvent
    requires t in s.threads && s.threads[t].stage.Recorded? && s.awaited == Some(s.threads[t].binding) && GoesOn(s, t)
    requires b !in s.disk.results
    ensures Reaches(Init(cfg), s') && s'.pc.Polling? && !s'.faultEvent && s'.cfg == s.cfg && s'.awaited.None?
    ensures Unresolved(s'.disk) == Unresolved(s.disk) + {b} && s'.sent == s.sent + {b}
  {
    var s0, h := Init(cfg), s.threads[t];
    var a1 := s.(threads := s.threads - {t}, event := true,
                 note := Some(Note(Consumed(h.result), h.needs, h.binding.intent)));
    NotifyOn(s0, s, t, a1);
    ReachedInv(cfg, a1);
    var a2 := ResetsAndPolls(s0, a1);
    var a3 := Publishes(s0, a2, b);
    var a4 := a3.(event := false, pc := Cleared);
    ClearEventOn(s0, a3, a4);
    ReachedInv(cfg, a4);
    s' := ResetsAndPolls(s0, a4);
  }

  // ----- A result that nobody waits for stays unsettled while orders go out

  // b needs settlement, and the loop neither waits for it nor settles its intent.
  predicate LeftAlone(s: State, b: Binding) {
    b in Unsettled(s.disk) && s.awaited != Some(b) && (s.pc.Settling? ==> s.pc.intent != b.intent)
  }

  // The order was created with this request, so a result can be recorded for it.
  predicate Recordable(s: State, b: Binding) {
    b.intent in s.cfg.requests && s.cfg.requests[b.intent] == b.request
  }

  // The awaited order has a result, or one can be recorded for it.
  predicate AwaitedCanEnd(s: State) {
    s.awaited.Some? && s.awaited.value !in s.disk.results ==> Recordable(s, s.awaited.value)
  }

  function Refusal(b: Binding): Record {
    map[Status := Text("fresh_book_rejected"), IntentId := Text(b.intent), RequestSha := Text(b.request)]
  }

  lemma FreshThread(threads: map<nat, Thread>) returns (t: nat)
    ensures t !in threads
  {
    t := LeastAbove(threads.Keys);
  }

  lemma LeastAbove(keys: set<nat>) returns (t: nat)
    ensures forall k :: k in keys ==> k < t
    decreases keys
  {
    if keys == {} { return 0; }
    var k :| k in keys;
    var below := LeastAbove(keys - {k});
    t := if below <= k then k + 1 else below;
    forall j | j in keys ensures j < t { assert j == k || j in keys - {k}; }
  }

  // A callback for the awaited order comes in and wakes the loop.
  lemma AwaitedArrives(s0: State, s: State) returns (s': State)
    requires Reaches(s0, s) && Inv(s) && s.pc.Waiting? && AwaitedCanEnd(s)
    ensures Reaches(s0, s') && s'.pc.Waiting? && s'.event && s'.faultEvent == s.faultEvent && s'.cfg == s.cfg
    ensures s'.disk.receipts == s.disk.receipts
    ensures s'.awaited == s.awaited && s'.disk.settlements == s.disk.settlements
    ensures s'.awaited.value in s'.disk.results && s.disk.results.Keys <= s'.disk.results.Keys
    ensures s.awaited.value in s.disk.results || !s'.disk.results[s.awaited.value].consumed
    ensures forall c :: c in s.disk.results ==> s'.disk.results[c] == s.disk.results[c]
  {
    var x := s.awaited.value;
    var t := FreshThread(s.threads);
    s' := if x in s.disk.results then Duplicate(s, x, t) else FirstRefused(s, x, t);
    if x in s.disk.results { DuplicateArrives(s0, s, x, t); } else { RefusalArrives(s0, s, x, t); }
    s' := Wakes(s0, s', t);
  }

  // The state after a second delivery of the result on file.
  function Duplicate(s: State, x: Binding, t: nat): State
    requires x in s.disk.results
  {
    s.(threads := s.threads[t := Thread(x, s.disk.results[x].hash, Recorded, s.disk.results[x].needs)])
  }

  lemma DuplicateArrives(s0: State, s: State, x: Binding, t: nat)
    requires Reaches(s0, s) && Inv(s) && Subscribed(s.pc) && t !in s.threads && x in s.sent && x in s.disk.results
    ensures Reaches(s0, Duplicate(s, x, t))
  {
    var r := s.disk.results[x].hash;
    assert ResultOk(s.cfg, x, s.disk.results[x]);
    var a := s.(threads := s.threads[t := Thread(x, r, Received, false)]);
    ReceiveOn(s0, s, t, x, r, a);
    ReplaySameOn(s0, a, t, Duplicate(s, x, t));
  }

  // The state after a first result that reports no attempt.
  function FirstRefused(s: State, x: Binding, t: nat): State {
    s.(disk := s.disk.(results := s.disk.results[x := ReceiptOf(Refusal(x), false)]),
       threads := s.threads[t := Thread(x, Refusal(x), Recorded, false)])
  }

  lemma RefusalArrives(s0: State, s: State, x: Binding, t: nat)
    requires Reaches(s0, s) && Subscribed(s.pc) && t !in s.threads && x in s.sent && x !in s.disk.results
    requires Recordable(s, x)
    ensures Reaches(s0, FirstRefused(s, x, t))
  {
    var a := s.(threads := s.threads[t := Thread(x, Refusal(x), Received, false)]);
    ReceiveOn(s0, s, t, x, Refusal(x), a);
    assert FirstRefused(s, x, t).astray == a.astray + {};
    RecordFirstOn(s0, a, t, false, FirstRefused(s, x, t));
  }

  lemma Wakes(s0: State, s: State, t: nat) returns (s': State)
    requires Reaches(s0, s) && t in s.threads && s.threads[t].stage.Recorded? && s.awaited == Some(s.threads[t].binding)
    ensures Reaches(s0, s')
    ensures var h := s.threads[t];
            s' == s.(threads := s.threads - {t}, event := true,
                     note := Some(Note(Consumed(h.result), h.needs, h.binding.intent)))
  {
    var h := s.threads[t];
    s' := s.(threads := s.threads - {t}, event := true,
             note := Some(Note(Consumed(h.result), h.needs, h.binding.intent)));
    NotifyOn(s0, s, t, s');
  }

  // The loop takes what woke it, and polls.
  lemma TakesAndPolls(cfg: Config, s: State, b: Binding) returns (s': State)
    requires Reaches(Init(cfg), s) && Inv(s) && s.pc.Waiting? && s.event && !OneShotEnds(s) && !s.faultEvent
    requires LeftAlone(s, b)
    ensures Reaches(Init(cfg), s') && s'.pc.Polling? && !s'.faultEvent && b in Unsettled(s'.disk)
    ensures s'.disk.receipts == s.disk.receipts
  {
    var a := s.(event := false, pc := Cleared);
    ClearEventOn(Init(cfg), s, a);
    ReachedInv(cfg, a);
    s' := ResetsAndPolls(Init(cfg), a);
  }

  // Whatever the loop waits for, it can come to the end of the wait with b still unsettled.
  lemma WaitEnds(cfg: Config, s: State, b: Binding) returns (s': State)
    requires Reaches(Init(cfg), s) && s.pc.Waiting? && !OneShotEnds(s) && !s.faultEvent
    requires LeftAlone(s, b) && AwaitedCanEnd(s)
    ensures Reaches(Init(cfg), s') && s'.pc.Polling? && !s'.faultEvent && b in Unsettled(s'.disk)
    ensures s'.disk.receipts == s.disk.receipts
  {
    ReachedInv(cfg, s);
    var a := s;
    if s.note.Some? || !s.event {
      a := AwaitedArrives(Init(cfg), s);
      ReachedInv(cfg, a);
    }
    s' := TakesAndPolls(cfg, a, b);
  }

  // From every state of an open source that has not come to its one-shot end: a recorded
  // result that needs settlement and that the loop neither awaits nor settles can be left so
  // while any order goes out that the candidate flow offers: on the direct path any without a
  // receipt, while the approval path publishes without looking for one.
  lemma PublishesWhileUnsettled(cfg: Config, s: State, b: Binding, next: Binding) returns (s': State, s'': State)
    requires Reaches(Init(cfg), s) && Subscribed(s.pc) && !OneShotEnds(s) && !s.faultEvent
    requires LeftAlone(s, b) && AwaitedCanEnd(s)
    ensures Reaches(Init(cfg), s') && StartPublish(s', next, s'') && b in Unsettled(s'.disk)
    ensures s'.disk.receipts == s.disk.receipts + if s.pc.Publishing? || s.pc.Published? then {s.pc.order} else {}
  {
    s' := ComesToPoll(cfg, s, b);
    s'' := s'.(pc := Publishing(next), awaited := Some(next));
  }

  lemma ComesToPoll(cfg: Config, s: State, b: Binding) returns (s': State)
    requires Reaches(Init(cfg), s) && Subscribed(s.pc) && !OneShotEnds(s) && !s.faultEvent
    requires LeftAlone(s, b) && AwaitedCanEnd(s)
    ensures Reaches(Init(cfg), s') && s'.pc.Polling? && !s'.faultEvent && b in Unsettled(s'.disk)
    ensures s'.disk.receipts == s.disk.receipts + if s.pc.Publishing? || s.pc.Published? then {s.pc.order} else {}
  {
    var s0 := Init(cfg);
    ReachedInv(cfg, s);
    match s.pc
    case Polling => s' := s;
    case Publishing(x) =>
      var a1 := s.(pc := Published(x), sent := s.sent + {x});
      SendOn(s0, s, true, true, a1);
      s' := ReceiptThenPoll(cfg, a1, b);
    case Published(x) => s' := ReceiptThenPoll(cfg, s, b);
    case Waiting => s' := WaitEnds(cfg, s, b);
    case Cleared => s' := ResetsAndPolls(s0, s);
    case Settling(i) =>
      var x :| Carries(s.disk.results, x, i);
      s' := Settles(s0, s, x);
  }

  lemma ReceiptThenPoll(cfg: Config, s: State, b: Binding) returns (s': State)
    requires Reaches(Init(cfg), s) && s.pc.Published? && !OneShotEnds(s) && !s.faultEvent
    requires LeftAlone(s, b) && AwaitedCanEnd(s)
    ensures Reaches(Init(cfg), s') && s'.pc.Polling? && !s'.faultEvent && b in Unsettled(s'.disk)
    ensures s'.disk.receipts == s.disk.receipts + {s.pc.order}
  {
    var a := s.(disk := s.disk.(receipts := s.disk.receipts + {s.pc.order}), pc := Waiting);
    WriteReceiptOn(Init(cfg), s, a);
    s' := WaitEnds(cfg, a, b);
  }

  function Acceptance(b: Binding): Record {
    map[Status := Text("accepted"), IntentId := Text(b.intent), RequestSha := Text(b.request),
        AttemptConsumed := Flag(true)]
  }

  // So from every state with an order out whose result is still to come, and which the loop
  // does not wait for: its result can be recorded, and left unsettled while any order that is
  // offered goes out.
  lemma UnawaitedResultIsLeft(cfg: Config, s: State, b: Binding, next: Binding) returns (s': State, s'': State)
    requires Reaches(Init(cfg), s) && Subscribed(s.pc) && !OneShotEnds(s) && !s.faultEvent && AwaitedCanEnd(s)
    requires b in s.sent && b !in s.disk.results && s.awaited != Some(b) && (s.pc.Settling? ==> s.pc.intent != b.intent)
    requires Recordable(s, b)
    ensures Reaches(Init(cfg), s') && StartPublish(s', next, s'') && b in Unsettled(s'.disk)
    ensures s'.disk.receipts == s.disk.receipts + if s.pc.Publishing? || s.pc.Published? then {s.pc.order} else {}
  {
    var s0, r := Init(cfg), Acceptance(b);
    ReachedInv(cfg, s);
    var t := FreshThread(s.threads);
    var a1 := s.(threads := s.threads[t := Thread(b, r, Received, false)]);
    ReceiveOn(s0, s, t, b, r, a1);
    var a2 := a1.(disk := a1.disk.(results := a1.disk.results[b := ReceiptOf(r, true)]), astray := a1.astray + {b},
                  threads := a1.threads[t := Thread(b, r, Recorded, true)]);
    RecordFirstOn(s0, a1, t, true, a2);
    s', s'' := PublishesWhileUnsettled(cfg, a2, b, next);
  }

  // ----- Two literal runs

  const ONE := Binding("i", "r")
  const TWO := Binding("j", "q")
  const LIVE := Config(true, map["i" := "r", "j" := "q"])

  // A source with a clean disk opens and polls.
  lemma Opens() returns (s: State)
    ensures Reaches(Init(LIVE), s) && s == Init(LIVE).(pc := Polling)
  {
    var s0 := Init(LIVE);
    Runs.ReachesSelf(Step, s0);
    s := Reopens(s0, s0);
  }

  lemma Reopens(s0: State, s: State) returns (s': State)
    requires Reaches(s0, s) && s == Init(LIVE).(sent := s.sent)
    ensures Reaches(s0, s') && s' == s.(pc := Polling)
  {
    var a1 := s.(pc := Opening);
    StartCleanOn(s0, s, a1);
    s' := a1.(pc := Polling);
    assert Unresolved(a1.disk) == {} && Unsettled(a1.disk) == {};
    OpenOn(s0, a1, None, s');
  }

  // The result of ONE is recorded, and its duplicate found to be the same.
  lemma RecordsTwice(s0: State, s: State) returns (s': State)
    requires Reaches(s0, s) && s.cfg == LIVE && s.pc.Waiting? && s.threads == map[] && ONE in s.sent
    requires s.disk.results == map[]
    ensures Reaches(s0, s')
    ensures s' == s.(disk := s.disk.(results := map[ONE := ReceiptOf(Refusal(ONE), false)]),
                     threads := map[0 := Thread(ONE, Refusal(ONE), Recorded, false),
                                    1 := Thread(ONE, Refusal(ONE), Recorded, false)])
  {
    var r := Refusal(ONE);
    var a1 := s.(threads := s.threads[0 := Thread(ONE, r, Received, false)]);
    ReceiveOn(s0, s, 0, ONE, r, a1);
    var a2 := a1.(disk := a1.disk.(results := a1.disk.results[ONE := ReceiptOf(r, false)]),
                  threads := a1.threads[0 := Thread(ONE, r, Recorded, false)]);
    assert a2.astray == a1.astray + {};
    RecordFirstOn(s0, a1, 0, false, a2);
    var a3 := a2.(threads := a2.threads[1 := Thread(ONE, r, Received, false)]);
    ReceiveOn(s0, a2, 1, ONE, r, a3);
    s' := a3.(threads := a3.threads[1 := Thread(ONE, r, Recorded, false)]);
    ReplaySameOn(s0, a3, 1, s');
    assert s'.disk.results == map[ONE := ReceiptOf(r, false)];
    assert s'.threads == map[0 := Thread(ONE, r, Recorded, false), 1 := Thread(ONE, r, Recorded, false)];
  }

  // It wakes the loop, which clears the event; the duplicate is about to set it again.
  lemma DuplicateInTheGap() returns (s: State)
    ensures Reaches(Init(LIVE), s) && s.cfg == LIVE && s.pc.Cleared? && !s.faultEvent && s.disk.results.Keys == {ONE}
    ensures 1 in s.threads && s.threads[1].stage.Recorded? && s.threads[1].binding == ONE && s.awaited == Some(ONE)
    ensures Unresolved(s.disk) == {}
  {
    var s0 := Init(LIVE);
    s := Opens();
    s := Publishes(s0, s, ONE);
    s := RecordsTwice(s0, s);
    s := Wakes(s0, s, 0);
    var a := s.(event := false, pc := Cleared);
    ClearEventOn(s0, s, a);
    s := a;
  }

  // The stale event ends the wait for the next order before its result exists.
  lemma StaleWakeSkipsAResult() returns (s: State)
    ensures Reaches(Init(LIVE), s) && s.cfg == LIVE && s.pc.Polling? && !s.faultEvent && Unresolved(s.disk) == {TWO}
    ensures TWO in s.sent && TWO !in s.disk.results && s.awaited.None?
  {
    var a := DuplicateInTheGap();
    s := GapSkipsTheNextResult(LIVE, a, 1, TWO);
    assert TWO in Unresolved(s.disk);
  }

  // That result, accepted and recorded afterwards, is unsettled while the next order goes out.
  lemma SkippedResultStaysUnsettled(next: Binding) returns (s: State, s': State)
    ensures Reaches(Init(LIVE), s) && StartPublish(s, next, s') && TWO in Unsettled(s.disk)
  {
    var a := StaleWakeSkipsAResult();
    s, s' := UnawaitedResultIsLeft(LIVE, a, TWO, next);
  }

  // A crash between publish and receipt: the next process records the result of an order
  // it does not know of, and publishes with that result unsettled.
  lemma ForgottenPublicationStaysUnsettled(next: Binding) returns (s: State, s': State)
    ensures Reaches(Init(LIVE), s) && StartPublish(s, next, s') && ONE in Unsettled(s.disk)
    ensures ONE !in s.disk.receipts
  {
    var s0 := Init(LIVE);
    var a := Opens();
    var a1 := a.(pc := Publishing(ONE), awaited := Some(ONE));
    StartPublishOn(s0, a, ONE, a1);
    var a2 := a1.(pc := Published(ONE), sent := {ONE});
    SendOn(s0, a1, true, true, a2);
    StopOn(s0, a2, Stopped(a2));
    var a3 := Reopens(s0, Stopped(a2));
    s, s' := UnawaitedResultIsLeft(LIVE, a3, ONE, next);
  }
}
