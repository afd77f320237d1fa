// The receiver's callback as it runs: one delivery, from verification to ack or
// nack, over mutable files. Every path through it is a stretch of a protocol run,
// so whatever ReceiverTheorems says about runs holds of this code.

module ReceiverCallback {
  import opened Common
  import opened ResultRecord
  import opened ReceiverProtocol
  import opened ReceiverPaths
  import opened ReceiverSafety
  import opened ReceiverSteps
  import T = ReceiverTheorems
  import Runs

  // How a call into the executor comes back: a result, a FastLiveError, any other
  // exception, or not at all.
  datatype Reply = Answer(record: Record) | Refused(retryable: bool) | Broken | Died

  // What the checks before the marker say: go on, a retryable error, a final one, or a
  // fresh book that is no longer marketable.
  datatype Gate = Open | Retry | Block | BookMoved

  // What the exchange makes of the order; NoAnswer stands for any exception or odd reply.
  datatype Exchange = Accepts | Rejects | NoAnswer

  // The outside of one callback: gates[n] is for the n-th attempt of the bounded retry. In a
  // calm callback the process does not die and nothing raises that is not named here.
  datatype Fate = Fate(calm: bool, gates: seq<Gate>, exchange: Exchange, publishFails: bool)
  {
    function GateOf(n: nat): Gate {
      if n < |gates| then gates[n] else Open
    }
  }

  // How a first execution goes, when nothing else goes wrong.
  datatype Course = Submits | Blocks | Moves | Exhausts

  // From the n-th attempt on, with that many retries left to the last one allowed.
  function CourseFrom(fate: Fate, n: nat, patience: nat): Course
    decreases patience - n
  {
    if n > patience then Exhausts
    else match fate.GateOf(n) {
           case Open => Submits
           case Block => Blocks
           case BookMoved => Moves
           case Retry => CourseFrom(fate, n + 1, patience)
         }
  }

  // The status the decision then ends with.
  function StatusDue(course: Course, e: Exchange): string {
    match course
    case Submits => StatusFor(e)
    case Blocks => "pre_submission_blocked"
    case Moves => "fresh_book_rejected"
    case Exhausts => "pre_attempt_retry_exhausted"
  }

  function StatusFor(e: Exchange): string {
    match e
    case Accepts => "accepted"
    case Rejects => "rejected"
    case NoAnswer => "submission_unknown"
  }

  // The first durable result of a submission, provisional if the order was accepted.
  function OutcomeRecord(b: Binding, e: Exchange, details: Record): Record {
    (details - {RecoveryPublishPending})
    + map[Status := Text(StatusFor(e)), IntentId := Text(b.intent), RequestSha := Text(b.request),
          AttemptConsumed := Flag(true), CancellationPending := Flag(e.Accepts?)]
  }

  lemma OutcomeRecordIs(b: Binding, e: Exchange, details: Record)
    ensures var r := OutcomeRecord(b, e, details);
            && Names(r, b) && Consumed(r) && !PublishPending(r)
            && StatusOf(r) == StatusFor(e) && (CancelPending(r) <==> e.Accepts?)
  {
  }

  function BookRejected(b: Binding, details: Record): Record {
    (details - {RecoveryPublishPending}) + UnsubmittedRecord(b, "fresh_book_rejected")
  }

  // How a callback ends. Gone means the process died under it.
  datatype Verdict = Acked | Nacked | Gone

  ghost predicate AnswerGiven(s: State, s': State, t: nat, v: Verdict) {
    && s'.history.deliveries == s.history.deliveries
    && (v != Gone && s.lock == None ==> s'.lock == None)
    && s'.history.acks == (if v.Acked? then s.history.acks + multiset{t} else s.history.acks)
    && s'.history.nacks == (if v.Nacked? then s.history.nacks + multiset{t} else s.history.nacks)
  }

  function Arrived(s: State, m: Message): State {
    s.(history := s.history.(deliveries := s.history.deliveries + [m]))
  }

  datatype Visit = Visit(message: Message, orderly: bool, patience: nat, fate: Fate)

  function Messages(visits: seq<Visit>): seq<Message> {
    seq(|visits|, i requires 0 <= i < |visits| => visits[i].message)
  }

  function CountAt(verdicts: seq<Verdict>, i: int, v: Verdict): nat {
    if 0 <= i < |verdicts| && verdicts[i] == v then 1 else 0
  }

  // The answers w since start are those of the deliveries from base on that got it.
  ghost predicate Counted(start: multiset<nat>, now: multiset<nat>, base: nat, verdicts: seq<Verdict>, w: Verdict) {
    forall d: nat :: now[d] == start[d] + CountAt(verdicts, d - base, w)
  }

  // From s0 to s the messages arrived in order and each got its verdict, nothing else.
  ghost predicate AnsweredSoFar(s0: State, s: State, visits: seq<Visit>, verdicts: seq<Verdict>)
    requires |verdicts| <= |visits|
  {
    var base := |s0.history.deliveries|;
    && s.history.deliveries == s0.history.deliveries + Messages(visits[..|verdicts|])
    && Counted(s0.history.acks, s.history.acks, base, verdicts, Acked)
    && Counted(s0.history.nacks, s.history.nacks, base, verdicts, Nacked)
  }

  lemma CountsOneMore(start: multiset<nat>, before: multiset<nat>, after: multiset<nat>, base: nat,
                      verdicts: seq<Verdict>, v: Verdict, w: Verdict)
    requires Counted(start, before, base, verdicts, w)
    requires after == if v == w then before + multiset{base + |verdicts|} else before
    ensures Counted(start, after, base, verdicts + [v], w)
  {}

  lemma MessagesOneMore(base: seq<Message>, visits: seq<Visit>, n: nat)
    requires n < |visits|
    ensures base + Messages(visits[..n]) + [visits[n].message] == base + Messages(visits[..n + 1])
  {
    assert Messages(visits[..n + 1]) == Messages(visits[..n]) + [visits[n].message];
  }

  lemma OneMore(s0: State, s: State, s': State, visits: seq<Visit>, verdicts: seq<Verdict>, v: Verdict)
    requires |verdicts| < |visits| && AnsweredSoFar(s0, s, visits, verdicts)
    requires AnswerGiven(Arrived(s, visits[|verdicts|].message), s', |s.history.deliveries|, v)
    ensures AnsweredSoFar(s0, s', visits, verdicts + [v])
  {
    var base := |s0.history.deliveries|;
    MessagesOneMore(s0.history.deliveries, visits, |verdicts|);
    CountsOneMore(s0.history.acks, s.history.acks, s'.history.acks, base, verdicts, v, Acked);
    CountsOneMore(s0.history.nacks, s.history.nacks, s'.history.nacks, base, verdicts, v, Nacked);
  }

  lemma NoneCounted(start: multiset<nat>, now: multiset<nat>, base: nat, verdicts: seq<Verdict>, w: Verdict)
    requires now == start && verdicts == []
    ensures Counted(start, now, base, verdicts, w)
  {}

  lemma NoneYet(s: State, visits: seq<Visit>)
    ensures AnsweredSoFar(s, s, visits, [])
  {
    assert s.history.deliveries + Messages(visits[..0]) == s.history.deliveries;
    NoneCounted(s.history.acks, s.history.acks, |s.history.deliveries|, [], Acked);
    NoneCounted(s.history.nacks, s.history.nacks, |s.history.deliveries|, [], Nacked);
  }

  lemma SafeStays(s: State, s': State)
    requires Safe(s) && Reaches(s, s')
    ensures Safe(s')
  {
    var path :| Runs.IsPath(Step, path) && path[0] == s && path[|path| - 1] == s';
    forall a, b | Safe(a) && Step(a, b) ensures Safe(b) { T.StepSafe(a, b); }
    Runs.KeptAlong(Step, Safe, path, 0, |path| - 1);
  }

  class Receiver {
    const cfg: Config
    // durable
    var claims: set<ApprovalId>
    var decisions: map<ApprovalId, Record>
    var attempts: map<Key, Record>
    var results: map<Key, Record>
    // volatile
    var accepting: bool
    var prepared: map<CacheSlot, string>
    // the protocol state this object is in
    ghost var st: State

    ghost predicate Valid()
      reads this
    {
      && st.cfg == cfg && st.disk == Disk(claims, decisions, attempts, results)
      && st.accepting == accepting && st.prepared == prepared && st.phase == Serving
    }

    // The thread of delivery t carries message m and stands at pc.
    ghost predicate Stands(t: nat, m: Message, pc: Pc, verified: bool)
      reads this
    {
      t in st.threads && st.threads[t] == Thread(m, pc, verified)
    }

    // The thread of delivery t can still raise.
    ghost predicate Running(t: nat, m: Message)
      reads this
    {
      && t in st.threads && st.threads[t].message == m
      && !st.threads[t].pc.Raised? && !st.threads[t].pc.PublishFailed?
    }

    // Nothing has arrived and nothing was answered since s.
    ghost predicate AnswersKept(s: State)
      reads this
    {
      && st.history.acks == s.history.acks && st.history.nacks == s.history.nacks
      && st.history.deliveries == s.history.deliveries
    }

    ghost predicate Undisturbed(s: State)
      reads this
    {
      AnswersKept(s) && st.lock == s.lock
    }

    ghost predicate SameHistory(s: State)
      reads this
    {
      st.history == s.history && st.lock == s.lock
    }

    // FastLiveExecutor.execute
    method Execute(ghost s0: State, ghost t: nat, m: Message, first: bool, ghost restored: bool, n: nat, fate: Fate)
      returns (reply: Reply)
      requires Valid() && IsOrder(m) && Stands(t, m, Pc.Execute(first, restored), true) && Reaches(s0, st)
      modifies this
      ensures Valid() && Reaches(s0, st)
      ensures reply.Answer? ==> Stands(t, m, Returned(restored, Seal(m, first, reply.record, n)), true)
      ensures reply.Refused? ==>
                Stands(t, m, Preparing(first, restored), true) && AttemptKey(cfg, m.binding) !in attempts
      ensures reply.Broken? ==> Running(t, m) && st.threads[t].orderVerified
      ensures AttemptKey(cfg, m.binding) in old(attempts) ==>
                st.history.submissions == old(st.history.submissions) && !reply.Refused?
      ensures reply.Refused? ==> st.history.submissions == old(st.history.submissions) && attempts == old(attempts)
      ensures claims == old(claims) && decisions == old(decisions)
      ensures Undisturbed(old(st))
      // a calm call does what the marker, the gate and the exchange call for
      ensures fate.calm && AttemptKey(cfg, m.binding) in old(attempts) ==> reply.Answer?
      ensures fate.calm && AttemptKey(cfg, m.binding) !in old(attempts) ==>
                if fate.GateOf(n).Retry? then reply == Refused(true)
                else Took(old(st), m, reply, CourseFrom(fate, n, n), fate.exchange)
    {
      var k := AttemptKey(cfg, m.binding);
      if k in attempts {
        var raises := Trouble(fate);
        if raises { return Broken; }
        var back := RecoverAttempt(s0, t, m, first, restored, n);
        return Answer(back);
      }
      PassMarkerCheck(s0, t, m, first, restored);
      var raises := Trouble(fate);
      if raises { return Broken; }
      match fate.GateOf(n)
      case Retry => return Refused(true);
      case Block => return Refused(false);
      case BookMoved =>
        var refusal := Decline(s0, t, m, first, restored, n);
        return Answer(refusal);
      case Open =>
        reply := Submit(s0, t, m, first, restored, n, fate);
    }

    ghost method PassMarkerCheck(s0: State, t: nat, m: Message, first: bool, restored: bool)
      requires Valid() && IsOrder(m) && Stands(t, m, Pc.Execute(first, restored), true) && Reaches(s0, st)
      requires AttemptKey(cfg, m.binding) !in attempts
      modifies this`st
      ensures Valid() && Reaches(s0, st) && Stands(t, m, Preparing(first, restored), true) && SameHistory(old(st))
    {
      var s1 := Goto(st, t, Preparing(first, restored));
      PassMarkerCheckOn(s0, st, t, s1);
      st := s1;
    }

    method Decline(ghost s0: State, ghost t: nat, m: Message, ghost first: bool, ghost restored: bool, ghost n: nat)
      returns (refusal: Record)
      requires Valid() && IsOrder(m) && Stands(t, m, Preparing(first, restored), true) && Reaches(s0, st)
      modifies this`st
      ensures Valid() && Reaches(s0, st) && Stands(t, m, Returned(restored, Seal(m, first, refusal, n)), true)
      ensures StatusOf(refusal) == "fresh_book_rejected" && SameHistory(old(st))
    {
      var details: Record := *;
      refusal := BookRejected(m.binding, details);
      ghost var s2 := Goto(st, t, Returned(restored, Seal(m, first, refusal, n)));
      DeclineOn(s0, st, t, refusal, n, s2);
      st := s2;
    }

    // Whether something not named in the fate goes wrong here.
    method Trouble(fate: Fate) returns (struck: bool)
      ensures fate.calm ==> !struck
    {
      struck := *;
      struck := struck && !fate.calm;
    }

    // Since s the order was submitted exactly once more, its marker is there, and the
    // exchange's answer is on file.
    ghost predicate SubmittedOnce(s: State, m: Message, e: Exchange)
      requires IsOrder(m)
      reads this
    {
      var k := AttemptKey(cfg, m.binding);
      && st.history.submissions == s.history.submissions + multiset{k}
      && k in attempts && k in results && Outcome(results[k], m, e)
    }

    ghost predicate Outcome(r: Record, m: Message, e: Exchange)
      requires IsOrder(m)
    {
      StatusOf(r) == StatusFor(e) && Consumed(r) && !CancelPending(r) && Names(r, m.binding)
    }

    // The executor came back as the course of the first execution says.
    ghost predicate Took(s: State, m: Message, reply: Reply, course: Course, e: Exchange)
      requires IsOrder(m)
      reads this
    {
      match course
      case Submits => SubmittedOnce(s, m, e) && reply == Answer(results[AttemptKey(cfg, m.binding)])
      case Blocks => reply == Refused(false) && st.history.submissions == s.history.submissions
      case _ => reply.Answer? && StatusOf(reply.record) == StatusDue(course, e)
                && st.history.submissions == s.history.submissions
    }

    // execute with a marker present: replay the stored result, finishing a pending
    // cancellation, or report that the outcome is unknown.
    method RecoverAttempt(ghost s0: State, ghost t: nat, m: Message, ghost first: bool, ghost restored: bool,
                          ghost n: nat)
      returns (back: Record)
      requires Valid() && IsOrder(m) && Stands(t, m, Pc.Execute(first, restored), true) && Reaches(s0, st)
      requires AttemptKey(cfg, m.binding) in attempts
      modifies this`st, this`results
      ensures Valid() && Reaches(s0, st) && Stands(t, m, Returned(restored, Seal(m, first, back, n)), true)
      ensures st.history.submissions == old(st.history.submissions) && Undisturbed(old(st))
      ensures AttemptKey(cfg, m.binding) !in old(results) ==>
                results == old(results) && StatusOf(back) == "submission_unknown"
    {
      var k := AttemptKey(cfg, m.binding);
      if k in results {
        var stored := results[k];
        var c: Value, o: Value := *, *;
        var current := if CancelPending(stored) then Settle(stored, c, o) else stored;
        results := results[k := current];
        back := current[ReplayedResult := Flag(true)];
        ghost var s1 := Goto(StoreAt(MarkReplayed(st, t), k, current), t, Returned(restored, Seal(m, first, back, n)));
        ReplayResultOn(s0, st, t, c, o, n, s1);
        st := s1;
      } else {
        back := UnknownRecord(attempts[k]);
        ghost var s1 := Goto(MarkReplayed(st, t), t, Returned(restored, Seal(m, first, back, n)));
        ReportUnknownOn(s0, st, t, n, s1);
        st := s1;
      }
    }

    // The part of execute from the attempt marker on.
    method Submit(ghost s0: State, ghost t: nat, m: Message, ghost first: bool, ghost restored: bool, ghost n: nat,
                  fate: Fate)
      returns (reply: Reply)
      requires Valid() && IsOrder(m) && Stands(t, m, Preparing(first, restored), true) && Reaches(s0, st)
      requires AttemptKey(cfg, m.binding) !in attempts
      modifies this
      ensures Valid() && Reaches(s0, st) && !reply.Refused?
      ensures reply.Answer? ==> Stands(t, m, Returned(restored, Seal(m, first, reply.record, n)), true)
      ensures reply.Broken? ==> Running(t, m) && st.threads[t].orderVerified
      ensures claims == old(claims) && decisions == old(decisions) && AttemptKey(cfg, m.binding) in attempts
      ensures Undisturbed(old(st))
      ensures fate.calm ==> Took(old(st), m, reply, Submits, fate.exchange)
    {
      WriteMarker(s0, t, m, first, restored);
      var dies := Trouble(fate);
      if dies { return Died; }
      var raises := Trouble(fate);
      if raises { return Broken; }
      CountSubmission(s0, t, m, first, restored);
      dies := Trouble(fate);
      if dies { return Died; }
      reply := Conclude(s0, t, m, first, restored, n, fate);
    }

    // The exclusive create of the attempt marker.
    method WriteMarker(ghost s0: State, ghost t: nat, m: Message, ghost first: bool, ghost restored: bool)
      requires Valid() && IsOrder(m) && Stands(t, m, Preparing(first, restored), true) && Reaches(s0, st)
      requires AttemptKey(cfg, m.binding) !in attempts
      modifies this`attempts, this`st
      ensures Valid() && Reaches(s0, st) && Stands(t, m, MarkerDurable(first, restored), true)
      ensures exists at :: attempts == old(attempts)[AttemptKey(cfg, m.binding) := AttemptRecord(m.binding, at)]
      ensures Undisturbed(old(st)) && st.history.submissions == old(st.history.submissions)
    {
      var k := AttemptKey(cfg, m.binding);
      var at: int := *;
      attempts := attempts[k := AttemptRecord(m.binding, at)];
      ghost var s1 := Goto(st.(disk := st.disk.(attempts := attempts),
                               history := st.history.(markerOwner := st.history.markerOwner[k := t])),
                           t, MarkerDurable(first, restored));
      WriteMarkerOn(s0, st, t, at, s1);
      st := s1;
    }

    ghost method CountSubmission(s0: State, t: nat, m: Message, first: bool, restored: bool)
      requires Valid() && IsOrder(m) && Stands(t, m, MarkerDurable(first, restored), true) && Reaches(s0, st)
      modifies this`st
      ensures Valid() && Reaches(s0, st) && Stands(t, m, Submitted(first, restored), true) && Undisturbed(old(st))
      ensures st.history.submissions == old(st.history.submissions) + multiset{AttemptKey(cfg, m.binding)}
    {
      var s2 := Goto(st.(history := st.history.(submissions := st.history.submissions
                                                               + multiset{AttemptKey(cfg, m.binding)})),
                     t, Submitted(first, restored));
      SubmitOrderOn(s0, st, t, s2);
      st := s2;
    }

    // post_order, and the record its answer, or the exception it raises, is turned into.
    method PostOrder(b: Binding, e: Exchange) returns (r: Record)
      ensures Names(r, b) && Consumed(r) && !PublishPending(r)
      ensures StatusOf(r) == StatusFor(e) && (CancelPending(r) <==> e.Accepts?)
    {
      var details: Record := *;
      OutcomeRecordIs(b, e, details);
      r := OutcomeRecord(b, e, details);
    }

    // The exchange's answer, or the unknown outcome of a call that raised.
    method Conclude(ghost s0: State, ghost t: nat, m: Message, ghost first: bool, ghost restored: bool, ghost n: nat,
                    fate: Fate)
      returns (reply: Reply)
      requires Valid() && IsOrder(m) && Stands(t, m, Submitted(first, restored), true) && Reaches(s0, st)
      modifies this
      ensures Valid() && Reaches(s0, st) && !reply.Refused?
      ensures reply.Answer? ==> Stands(t, m, Returned(restored, Seal(m, first, reply.record, n)), true)
      ensures reply.Broken? ==> Running(t, m) && st.threads[t].orderVerified
      ensures claims == old(claims) && decisions == old(decisions) && attempts == old(attempts)
      ensures Undisturbed(old(st)) && st.history.submissions == old(st.history.submissions)
      ensures fate.calm ==>
                && reply.Answer? && results == old(results)[AttemptKey(cfg, m.binding) := reply.record]
                && Outcome(reply.record, m, fate.exchange)
    {
      var r := PostOrder(m.binding, fate.exchange);
      var raises := Trouble(fate);
      if raises { return Broken; }
      StoreOutcome(s0, t, m, first, restored, r, n);
      if !CancelPending(r) { return Answer(r); }
      reply := CompleteAccepted(s0, t, m, first, restored, r, n, fate);
    }

    // An accepted order lives for its time, then it is cancelled and its status probed.
    method CompleteAccepted(ghost s0: State, ghost t: nat, m: Message, ghost first: bool, ghost restored: bool,
                            r: Record, ghost n: nat, fate: Fate)
      returns (reply: Reply)
      requires Valid() && IsOrder(m) && Stands(t, m, Provisional(first, restored, r), true) && Reaches(s0, st)
      modifies this`st, this`results
      ensures Valid() && Reaches(s0, st) && !reply.Refused?
      ensures reply.Answer? ==> Stands(t, m, Returned(restored, Seal(m, first, reply.record, n)), true)
      ensures reply.Broken? ==> Running(t, m) && st.threads[t].orderVerified
      ensures Undisturbed(old(st)) && st.history.submissions == old(st.history.submissions)
      ensures reply.Answer? ==>
                && results == old(results)[AttemptKey(cfg, m.binding) := reply.record] && !CancelPending(reply.record)
                && StatusOf(reply.record) == StatusOf(r) && (Consumed(r) ==> Consumed(reply.record))
                && (Names(r, m.binding) ==> Names(reply.record, m.binding))
      ensures fate.calm ==> reply.Answer?
    {
      var dies := Trouble(fate);
      if dies { return Died; }
      var raises := Trouble(fate);
      if raises { return Broken; }
      var out := FinishAcceptedOrder(s0, t, m, first, restored, r, n);
      return Answer(out);
    }

    // The first durable write of a result, provisional when a cancellation is pending.
    method StoreOutcome(ghost s0: State, ghost t: nat, m: Message, ghost first: bool, ghost restored: bool,
                        r: Record, ghost n: nat)
      requires Valid() && IsOrder(m) && Stands(t, m, Submitted(first, restored), true) && Reaches(s0, st)
      requires Names(r, m.binding) && Consumed(r) && !PublishPending(r)
      requires StatusOf(r) == "rejected" || StatusOf(r) == "submission_unknown" || CancelPending(r)
      modifies this`st, this`results
      ensures Valid() && Reaches(s0, st) && Undisturbed(old(st))
      ensures st.history.submissions == old(st.history.submissions)
      ensures results == old(results)[AttemptKey(cfg, m.binding) := r]
      ensures Stands(t, m, if CancelPending(r) then Provisional(first, restored, r)
                           else Returned(restored, Seal(m, first, r, n)), true)
    {
      var k := AttemptKey(cfg, m.binding);
      results := results[k := r];
      ghost var s3 := Goto(StoreAt(st, k, r), t,
                           if CancelPending(r) then Provisional(first, restored, r)
                           else Returned(restored, Seal(m, first, r, n)));
      StoreResultOn(s0, st, t, r, n, s3);
      st := s3;
    }

    // The cancellation and the official status that complete an accepted order.
    method FinishAcceptedOrder(ghost s0: State, ghost t: nat, m: Message, ghost first: bool, ghost restored: bool,
                               r: Record, ghost n: nat)
      returns (settled: Record)
      requires Valid() && IsOrder(m) && Stands(t, m, Provisional(first, restored, r), true) && Reaches(s0, st)
      modifies this`st, this`results
      ensures Valid() && Reaches(s0, st) && Undisturbed(old(st))
      ensures st.history.submissions == old(st.history.submissions)
      ensures Stands(t, m, Returned(restored, Seal(m, first, settled, n)), true)
      ensures StatusOf(settled) == StatusOf(r) && (Consumed(r) ==> Consumed(settled))
      ensures Names(r, m.binding) ==> Names(settled, m.binding)
      ensures results == old(results)[AttemptKey(cfg, m.binding) := settled] && !CancelPending(settled)
    {
      var k := AttemptKey(cfg, m.binding);
      var c: Value, o: Value := *, *;
      settled := Settle(r, c, o);
      results := results[k := settled];
      ghost var s4 := Goto(StoreAt(st, k, settled), t, Returned(restored, Seal(m, first, settled, n)));
      FinishAcceptedOn(s0, st, t, c, o, n, s4);
      st := s4;
    }

    // execute_with_bounded_pre_attempt_retry; patience is how many retries the
    // message's remaining lifetime allows.
    method ExecuteWithRetry(ghost s0: State, ghost t: nat, m: Message, ghost restored: bool, patience: nat, fate: Fate)
      returns (reply: Reply, retries: nat)
      requires Valid() && IsOrder(m) && Stands(t, m, Pc.Execute(true, restored), true) && Reaches(s0, st)
      modifies this
      ensures Valid() && Reaches(s0, st) && retries <= patience + 1
      ensures reply.Answer? ==> Stands(t, m, Returned(restored, Seal(m, true, reply.record, retries)), true)
      ensures reply.Refused? ==>
                Stands(t, m, Preparing(true, restored), true) && AttemptKey(cfg, m.binding) !in attempts
      ensures reply.Broken? ==> Running(t, m) && st.threads[t].orderVerified
      ensures claims == old(claims) && decisions == old(decisions) && Undisturbed(old(st))
      ensures fate.calm && AttemptKey(cfg, m.binding) in old(attempts) ==> reply.Answer?
      ensures AttemptKey(cfg, m.binding) in old(attempts) ==> st.history.submissions == old(st.history.submissions)
      ensures fate.calm && AttemptKey(cfg, m.binding) !in old(attempts) ==>
                Took(old(st), m, reply, CourseFrom(fate, 0, patience), fate.exchange)
    {
      retries := 0;
      while true
        invariant Valid() && Stands(t, m, Pc.Execute(true, restored), true) && Reaches(s0, st) && retries <= patience
        invariant claims == old(claims) && decisions == old(decisions) && Undisturbed(old(st))
        invariant attempts == old(attempts) && st.history.submissions == old(st.history.submissions)
        invariant fate.calm && AttemptKey(cfg, m.binding) !in attempts ==>
                    CourseFrom(fate, 0, patience) == CourseFrom(fate, retries, patience)
        decreases patience - retries
      {
        reply := Execute(s0, t, m, true, restored, retries, fate);
        if !reply.Refused? || !reply.retryable { return; }
        retries := retries + 1;
        if retries > patience {
          var out := GiveUp(s0, t, m, restored, retries);
          return Answer(out), retries;
        }
        TryAgain(s0, t, m, restored);
      }
    }

    ghost method TryAgain(s0: State, t: nat, m: Message, restored: bool)
      requires Valid() && IsOrder(m) && Stands(t, m, Preparing(true, restored), true) && Reaches(s0, st)
      requires AttemptKey(cfg, m.binding) !in attempts
      modifies this`st
      ensures Valid() && Reaches(s0, st) && Stands(t, m, Pc.Execute(true, restored), true) && Undisturbed(old(st))
      ensures st.history.submissions == old(st.history.submissions)
    {
      var s1 := Goto(st, t, Pc.Execute(true, restored));
      RetryExecuteOn(s0, st, t, s1);
      st := s1;
    }

    method GiveUp(ghost s0: State, ghost t: nat, m: Message, ghost restored: bool, ghost retries: nat)
      returns (out: Record)
      requires Valid() && IsOrder(m) && Stands(t, m, Preparing(true, restored), true) && Reaches(s0, st)
      modifies this`st
      ensures Valid() && Reaches(s0, st) && Stands(t, m, Returned(restored, Seal(m, true, out, retries)), true)
      ensures Undisturbed(old(st)) && st.history.submissions == old(st.history.submissions)
      ensures StatusOf(out) == "pre_attempt_retry_exhausted"
    {
      out := UnsubmittedRecord(m.binding, "pre_attempt_retry_exhausted");
      ghost var s1 := Goto(st, t, Returned(restored, Seal(m, true, out, retries)));
      DeclineOn(s0, st, t, out, retries, s1);
      st := s1;
    }

    // Take the approval lock, pop the prepared order, and check its hash.
    method TakeApprovalLock(ghost s0: State, ghost t: nat, m: Message) returns (cached: Option<string>)
      requires Valid() && m.Approval? && Stands(t, m, AwaitLock, false) && st.lock == None && Reaches(s0, st)
      modifies this`st, this`prepared
      ensures Valid() && Reaches(s0, st) && Stands(t, m, Locked(cached), false) && st.lock == Some(t)
      ensures AnswersKept(old(st)) && st.history.submissions == old(st.history.submissions)
      ensures cached == if m.slot in old(prepared) then Some(old(prepared)[m.slot]) else None
    {
      cached := if m.slot in prepared then Some(prepared[m.slot]) else None;
      prepared := prepared - {m.slot};
      ghost var s1 := Goto(st.(lock := Some(t), prepared := prepared), t, Locked(cached));
      TakeLockOn(s0, st, t, s1);
      st := s1;
    }

    // _claim_approval_once: an exclusive create.
    method ClaimApprovalOnce(ghost s0: State, ghost t: nat, m: Message, cached: Option<string>) returns (claimed: bool)
      requires Valid() && m.Approval? && Stands(t, m, Locked(cached), false) && Reaches(s0, st)
      requires cached.Some? ==> cached.value == m.prepareHash
      modifies this`st, this`claims
      ensures Valid() && Reaches(s0, st) && Stands(t, m, Claimed(claimed, cached.None?), false)
      ensures claimed == (IdOf(m) !in old(claims)) && claims == old(claims) + {IdOf(m)}
      ensures Undisturbed(old(st)) && st.history.submissions == old(st.history.submissions)
    {
      claimed := IdOf(m) !in claims;
      claims := claims + {IdOf(m)};
      ghost var s1 := Goto(st.(disk := st.disk.(claims := claims)), t, Claimed(claimed, cached.None?));
      ClaimOnceOn(s0, st, t, s1);
      st := s1;
    }

    // A decision is already durable: replay it.
    method ReplayApprovalResult(ghost s0: State, ghost t: nat, m: Message, ghost claimed: bool, restored: bool)
      returns (r: Record)
      requires Valid() && m.Approval? && Stands(t, m, Claimed(claimed, restored), false) && Reaches(s0, st)
      requires IdOf(m) in decisions
      modifies this`st
      ensures Valid() && Reaches(s0, st) && Stands(t, m, Ready(r), false)
      ensures Mirrors(r, m) && (old(st.lock) == Some(t) ==> st.lock == None)
      ensures AnswersKept(old(st)) && st.history.submissions == old(st.history.submissions)
    {
      var p: int, q: int := *, *;
      r := DecorateApproval(decisions[IdOf(m)][ApprovalDecisionReplayed := Flag(true)], m.createdAt, restored, p, q);
      ghost var s1 := Goto(Release(st, t), t, Ready(r));
      ReplayDecisionOn(s0, st, t, p, q, s1);
      st := s1;
    }

    // _write_approval_result, then the fields added for publication.
    method WriteApprovalResult(ghost s0: State, ghost t: nat, m: Message, restored: bool, record: Record)
      returns (r: Record)
      requires Valid() && m.Approval? && t in st.threads && st.threads[t].message == m
      requires st.threads[t].pc == Returned(restored, record) && Reaches(s0, st)
      modifies this`st, this`decisions
      ensures Valid() && Reaches(s0, st) && decisions == old(decisions)[IdOf(m) := record]
      ensures t in st.threads && st.threads[t].message == m && st.threads[t].pc == Ready(r)
      ensures Mirrors(r, m) && (old(st.lock) == Some(t) ==> st.lock == None)
      ensures AnswersKept(old(st)) && st.history.submissions == old(st.history.submissions)
    {
      var p: int, q: int := *, *;
      decisions := decisions[IdOf(m) := record];
      r := DecorateApproval(record, m.createdAt, restored, p, q);
      DecorateMirrors(record, m.createdAt, restored, p, q);
      ghost var s1 := Goto(Release(st.(disk := st.disk.(decisions := decisions),
                                       trace := st.trace.(decider := st.trace.decider[IdOf(m) := t])), t), t, Ready(r));
      RecordDecisionOn(s0, st, t, p, q, s1);
      st := s1;
    }

    // No prepared order is cached for the approval, or the one it was made from.
    predicate CacheAgrees(m: Message)
      requires m.Approval?
      reads this
    {
      m.slot in prepared ==> prepared[m.slot] == m.prepareHash
    }

    // The record hashes like the durable decision of the message.
    ghost predicate Mirrors(r: Record, m: Message)
      requires m.Approval?
      reads this
    {
      IdOf(m) in decisions && Stable(r) == Stable(decisions[IdOf(m)])[ApprovalCreatedAt := Number(m.createdAt)]
    }

    // The approval lock is free once there is an answer, and held by no other delivery before.
    ghost predicate FreedBy(t: nat, reply: Reply)
      reads this
    {
      (reply.Answer? ==> st.lock == None) && (st.lock == None || st.lock == Some(t))
    }

    // The block of the callback that holds the approval execution lock.
    method Decide(ghost s0: State, ghost t: nat, m: Message, patience: nat, fate: Fate)
      returns (reply: Reply, orderVerified: bool)
      requires Valid() && m.Approval? && Stands(t, m, AwaitLock, false) && st.lock == None && Reaches(s0, st)
      modifies this
      ensures Valid() && Reaches(s0, st) && !reply.Refused?
      ensures reply.Answer? ==> t in st.threads && st.threads[t].message == m && st.threads[t].pc == Ready(reply.record)
                                && Mirrors(reply.record, m)
      ensures reply.Broken? ==> Running(t, m) && st.threads[t].orderVerified == orderVerified
      ensures AnswersKept(old(st)) && FreedBy(t, reply)
      // a redelivery of a claimed approval never submits
      ensures IdOf(m) in old(claims) ==> st.history.submissions == old(st.history.submissions)
      // a recorded decision is replayed untouched
      ensures IdOf(m) in old(decisions) ==>
                decisions == old(decisions) && st.history.submissions == old(st.history.submissions)
      ensures fate.calm && old(CacheAgrees(m)) ==> reply.Answer?
      ensures fate.calm && old(CacheAgrees(m)) && IdOf(m) !in old(decisions)
              && AttemptKey(cfg, m.binding) !in old(attempts) ==>
                Settled(old(st), m, decisions[IdOf(m)], IdOf(m) !in old(claims),
                        CourseFrom(fate, 0, patience), fate.exchange)
    {
      var cached := TakeApprovalLock(s0, t, m);
      orderVerified := false;
      if cached.Some? && cached.value != m.prepareHash { return Broken, false; }
      var dies := Trouble(fate);
      if dies { return Died, false; }
      var raises := Trouble(fate);
      if raises { return Broken, false; }
      var claimed := ClaimApprovalOnce(s0, t, m, cached);
      dies := Trouble(fate);
      if dies { return Died, false; }
      if IdOf(m) in decisions {
        var r := ReplayApprovalResult(s0, t, m, claimed, cached.None?);
        return Answer(r), false;
      }
      reply := DecideAnew(s0, t, m, claimed, cached.None?, patience, fate);
      orderVerified := true;
    }

    // Run or recover the order, make the decision durable, and only then let it be published.
    method DecideAnew(ghost s0: State, ghost t: nat, m: Message, claimed: bool, restored: bool, patience: nat,
                      fate: Fate)
      returns (reply: Reply)
      requires Valid() && m.Approval? && Stands(t, m, Claimed(claimed, restored), false) && Reaches(s0, st)
      requires IdOf(m) !in decisions && st.lock == Some(t)
      modifies this
      ensures Valid() && Reaches(s0, st) && !reply.Refused?
      ensures reply.Answer? ==> t in st.threads && st.threads[t].message == m && st.threads[t].pc == Ready(reply.record)
                                && Mirrors(reply.record, m)
      ensures reply.Broken? ==> Running(t, m) && st.threads[t].orderVerified
      ensures AnswersKept(old(st)) && FreedBy(t, reply)
      ensures !claimed ==> st.history.submissions == old(st.history.submissions)
      ensures fate.calm ==> reply.Answer?
      ensures fate.calm && AttemptKey(cfg, m.binding) !in old(attempts) ==>
                Settled(old(st), m, decisions[IdOf(m)], claimed, CourseFrom(fate, 0, patience), fate.exchange)
    {
      reply := ExecuteOrRecover(s0, t, m, claimed, restored, patience, fate);
      if !reply.Answer? { return; }
      var dies := Trouble(fate);
      if dies { return Died; }
      var r := WriteApprovalResult(s0, t, m, restored, reply.record);
      return Answer(r);
    }

    // What becomes of an approval without a decision or a marker: the one that took the
    // claim runs its course, any other is blocked for good.
    ghost predicate Settled(s: State, m: Message, r: Record, claimed: bool, course: Course, e: Exchange)
      requires IsOrder(m)
      reads this
    {
      && StatusOf(r) == (if claimed then StatusDue(course, e) else "approval_recovery_blocked")
      && if claimed && course.Submits? then SubmittedOnce(s, m, e)
         else st.history.submissions == s.history.submissions
    }

    // No decision is recorded yet: execute, recover from the attempt marker, or give up safely.
    method ExecuteOrRecover(ghost s0: State, ghost t: nat, m: Message, claimed: bool, restored: bool, patience: nat,
                            fate: Fate)
      returns (reply: Reply)
      requires Valid() && m.Approval? && Stands(t, m, Claimed(claimed, restored), false) && Reaches(s0, st)
      requires IdOf(m) !in decisions
      modifies this
      ensures Valid() && Reaches(s0, st) && !reply.Refused?
      ensures reply.Answer? ==> t in st.threads && st.threads[t].message == m
                                && st.threads[t].pc == Returned(restored, reply.record)
      ensures reply.Broken? ==> Running(t, m) && st.threads[t].orderVerified
      ensures claims == old(claims) && decisions == old(decisions) && Undisturbed(old(st))
      ensures !claimed ==> st.history.submissions == old(st.history.submissions)
      ensures fate.calm ==> reply.Answer?
      ensures fate.calm && AttemptKey(cfg, m.binding) !in old(attempts) ==>
                Settled(old(st), m, reply.record, claimed, CourseFrom(fate, 0, patience), fate.exchange)
    {
      if !claimed && AttemptKey(cfg, m.binding) !in attempts {
        reply := Answer(BlockedRecord(m.binding));
        BlockRecovery(s0, t, m, restored);
        return;
      }
      EnterExecutor(s0, t, m, claimed, restored);
      if !claimed {
        reply := Execute(s0, t, m, false, restored, 0, fate);
        if reply.Answer? { reply := Answer(Seal(m, false, reply.record, 0)); }
        return;
      }
      reply := ExecuteFirst(s0, t, m, restored, patience, fate);
    }

    // The claim winner's execution; a FastLiveError before the marker is a decision too.
    method ExecuteFirst(ghost s0: State, ghost t: nat, m: Message, restored: bool, patience: nat, fate: Fate)
      returns (reply: Reply)
      requires Valid() && m.Approval? && Stands(t, m, Pc.Execute(true, restored), true) && Reaches(s0, st)
      modifies this
      ensures Valid() && Reaches(s0, st) && !reply.Refused?
      ensures reply.Answer? ==> t in st.threads && st.threads[t].message == m
                                && st.threads[t].pc == Returned(restored, reply.record)
      ensures reply.Broken? ==> Running(t, m) && st.threads[t].orderVerified
      ensures claims == old(claims) && decisions == old(decisions) && Undisturbed(old(st))
      ensures fate.calm ==> reply.Answer?
      ensures fate.calm && AttemptKey(cfg, m.binding) !in old(attempts) ==>
                Settled(old(st), m, reply.record, true, CourseFrom(fate, 0, patience), fate.exchange)
    {
      var retries;
      reply, retries := ExecuteWithRetry(s0, t, m, restored, patience, fate);
      if reply.Answer? {
        reply := Answer(Seal(m, true, reply.record, retries));
      } else if reply.Refused? {
        var r := BlockSubmission(s0, t, m, restored);
        reply := Answer(r);
      }
    }

    ghost method BlockRecovery(s0: State, t: nat, m: Message, restored: bool)
      requires Valid() && m.Approval? && Stands(t, m, Claimed(false, restored), false) && Reaches(s0, st)
      requires IdOf(m) !in decisions && AttemptKey(cfg, m.binding) !in attempts
      modifies this`st
      ensures Valid() && Reaches(s0, st) && SameHistory(old(st))
      ensures t in st.threads && st.threads[t].message == m
      ensures st.threads[t].pc == Returned(restored, BlockedRecord(m.binding))
    {
      var s1 := Goto(st, t, Returned(restored, BlockedRecord(m.binding)));
      BlockRecoveryOn(s0, st, t, s1);
      st := s1;
    }

    ghost method EnterExecutor(s0: State, t: nat, m: Message, claimed: bool, restored: bool)
      requires Valid() && m.Approval? && Stands(t, m, Claimed(claimed, restored), false) && Reaches(s0, st)
      requires IdOf(m) !in decisions && (claimed || AttemptKey(cfg, m.binding) in attempts)
      modifies this`st
      ensures Valid() && Reaches(s0, st) && Stands(t, m, Pc.Execute(claimed, restored), true)
      ensures Undisturbed(old(st)) && st.history.submissions == old(st.history.submissions)
    {
      var s1 := st.(threads := st.threads[t := Thread(m, Pc.Execute(claimed, restored), true)],
                    history := st.history.(firstEntries := st.history.firstEntries
                                             + if claimed then multiset{IdOf(m)} else multiset{}));
      EnterExecutorOn(s0, st, t, s1);
      st := s1;
    }

    // A FastLiveError before the marker: the decision is that nothing was submitted.
    method BlockSubmission(ghost s0: State, ghost t: nat, m: Message, ghost restored: bool) returns (r: Record)
      requires Valid() && m.Approval? && Stands(t, m, Preparing(true, restored), true) && Reaches(s0, st)
      requires AttemptKey(cfg, m.binding) !in attempts
      modifies this`st
      ensures Valid() && Reaches(s0, st) && SameHistory(old(st))
      ensures StatusOf(r) == "pre_submission_blocked"
      ensures t in st.threads && st.threads[t].message == m && st.threads[t].pc == Returned(restored, r)
    {
      r := UnsubmittedRecord(m.binding, "pre_submission_blocked")[ApprovalDecisionReplayed := Flag(false)];
      ghost var s2 := Goto(st, t, Returned(restored, r));
      BlockSubmissionOn(s0, st, t, s2);
      st := s2;
    }

    // publish_result. A publish call that fails may still have reached the topic.
    method PublishResult(ghost s0: State, ghost t: nat, m: Message, r: Record, fails: bool) returns (returned: bool)
      requires Valid() && t in st.threads && st.threads[t].message == m && st.threads[t].pc == Ready(r)
      requires Reaches(s0, st)
      modifies this`st
      ensures Valid() && Reaches(s0, st) && Undisturbed(old(st))
      ensures t in st.threads && st.threads[t].pc == if returned then ResultPublished else PublishFailed
      ensures returned == !fails && (returned ==> FromDelivery(t, r) in st.history.published)
      ensures st.disk == old(st.disk)
      ensures st.history.submissions == old(st.history.submissions)
    {
      returned := !fails;
      var reached: bool := *;
      reached := reached || returned;
      ghost var news := if reached then {FromDelivery(t, r)} else {};
      ghost var s1 := Goto(Announce(MarkReturned(st, t, returned), news), t,
                           if returned then ResultPublished else PublishFailed);
      PublishOn(s0, st, t, reached, returned, s1);
      st := s1;
    }

    // Ack after a publish that returned, nack after one that failed.
    method AnswerDelivery(ghost s0: State, ghost t: nat, returned: bool) returns (v: Verdict)
      requires Valid() && t in st.threads && Reaches(s0, st)
      requires st.threads[t].pc == if returned then ResultPublished else PublishFailed
      modifies this`st
      ensures Valid() && Reaches(s0, st) && Answered(old(st), t, v)
      ensures v == if returned then Acked else Nacked
      ensures st.history.submissions == old(st.history.submissions)
      ensures st.history.published == old(st.history.published) && st.disk == old(st.disk)
    {
      if returned {
        ghost var s2 := AckAndLeave(st, t);
        AckPublishedOn(s0, st, t, s2);
        st := s2;
        return Acked;
      }
      ghost var s2 := NackAndLeave(st, t);
      NackFailedOn(s0, st, t, s2);
      st := s2;
      return Nacked;
    }

    // Publish, then answer; the process may die before or after the publish.
    method PublishAndAnswer(ghost s0: State, ghost t: nat, m: Message, r: Record, fate: Fate) returns (v: Verdict)
      requires Valid() && t in st.threads && st.threads[t].message == m && st.threads[t].pc == Ready(r)
      requires Reaches(s0, st)
      modifies this`st
      ensures Valid() && Reaches(s0, st) && Answered(old(st), t, v)
      ensures v.Acked? ==> FromDelivery(t, r) in st.history.published
      ensures fate.calm ==> v == if fate.publishFails then Nacked else Acked
      ensures st.history.submissions == old(st.history.submissions) && st.disk == old(st.disk)
    {
      var dies := Trouble(fate);
      if dies { return Gone; }
      var returned := PublishResult(s0, t, m, r, fate.publishFails);
      dies := Trouble(fate);
      if dies { return Gone; }
      v := AnswerDelivery(s0, t, returned);
    }

    // The callback's exception handler: nack only when an attempt marker may need recovery.
    method Fail(ghost s0: State, ghost t: nat, m: Message, orderVerified: bool) returns (v: Verdict)
      requires Valid() && Running(t, m) && st.threads[t].orderVerified == orderVerified && Reaches(s0, st)
      modifies this`st
      ensures Valid() && Reaches(s0, st) && Answered(old(st), t, v) && v != Gone
      ensures old(st.lock) == Some(t) ==> st.lock == None
      ensures v.Nacked? <==> orderVerified && IsOrder(m) && AttemptKey(cfg, m.binding) in attempts
      ensures st.history.submissions == old(st.history.submissions)
    {
      ghost var s1 := Goto(Release(st, t), t, Raised);
      RaiseErrorOn(s0, st, t, s1);
      st := s1;
      var keep := orderVerified && IsOrder(m) && AttemptKey(cfg, m.binding) in attempts;
      ghost var s2 := if keep then NackAndLeave(st, t) else AckAndLeave(st, t);
      HandleErrorOn(s0, st, t, s2);
      st := s2;
      return if keep then Nacked else Acked;
    }

    // Exactly one answer was given to delivery t since s and the approval lock is free, or
    // none because the process died.
    ghost predicate Answered(s: State, t: nat, v: Verdict)
      reads this
    {
      AnswerGiven(s, st, t, v)
    }

    // One delivery, start to end. orderly says whether the runtime, decoding and
    // message checks pass; the delivery's number is its position in the history.
    method Callback(m: Message, orderly: bool, patience: nat, fate: Fate) returns (v: Verdict)
      requires Valid() && st.lock == None
      modifies this
      ensures Valid() && Reaches(old(st), st)
      ensures Answered(Arrived(old(st), m), |old(st).history.deliveries|, v)
      ensures m.Approval? && IdOf(m) in old(claims) ==> st.history.submissions == old(st.history.submissions)
      ensures !IsOrder(m) || !orderly || !old(accepting) ==> st.disk == old(st.disk) && v == Acked
      ensures fate.calm && orderly && old(accepting) && m.Approval? && cfg.approvalRequired && old(CacheAgrees(m)) ==>
                Handled(old(st), |old(st).history.deliveries|, m, v, patience, fate)
      ensures fate.calm && orderly && old(accepting) && m.Direct? && !cfg.approvalRequired ==>
                HandledDirect(old(st), m, v, patience, fate)
    {
      ghost var s0 := st;
      ghost var t := |st.history.deliveries|;
      Runs.ReachesSelf(Step, s0);
      ghost var arrived := Arrived(st, m);
      if !accepting {
        ghost var s1 := AckAndLeave(arrived, t);
        DeliverOn(s0, st, m, s1);
        st := s1;
        return Acked;
      }
      ghost var s1 := arrived.(threads := st.threads[t := Thread(m, Entered, false)]);
      DeliverOn(s0, st, m, s1);
      st := s1;
      if !orderly {
        v := Fail(s0, t, m, false);
        return;
      }
      match m
      case Control => v := AckControl(s0, t, m);
      case Prepare(_, _) => v := AckControl(s0, t, m);
      case Approval(_, _, _, _, _) => v := HandleApproval(s0, t, m, patience, fate);
      case Direct(_, _) => v := HandleDirect(s0, t, m, patience, fate);
    }

    method AckControl(ghost s0: State, ghost t: nat, m: Message) returns (v: Verdict)
      requires Valid() && !IsOrder(m) && Stands(t, m, Entered, false) && Reaches(s0, st)
      modifies this`st, this`prepared
      ensures Valid() && Reaches(s0, st) && Answered(old(st), t, v) && v == Acked
      ensures m.Prepare? ==> prepared == old(prepared)[m.slot := m.prepareHash]
      ensures st.disk == old(st.disk)
    {
      if m.Prepare? { prepared := prepared[m.slot := m.prepareHash]; }
      ghost var s1 := AckAndLeave(st.(prepared := prepared), t);
      FinishControlOn(s0, st, t, s1);
      st := s1;
      return Acked;
    }

    method HandleApproval(ghost s0: State, ghost t: nat, m: Message, patience: nat, fate: Fate) returns (v: Verdict)
      requires Valid() && m.Approval? && Stands(t, m, Entered, false) && st.lock == None && Reaches(s0, st)
      modifies this
      ensures Valid() && Reaches(s0, st) && Answered(old(st), t, v)
      ensures IdOf(m) in old(claims) ==> st.history.submissions == old(st.history.submissions)
      ensures fate.calm && cfg.approvalRequired && old(CacheAgrees(m)) ==> Handled(old(st), t, m, v, patience, fate)
    {
      if !cfg.approvalRequired {
        v := Fail(s0, t, m, false);
        return;
      }
      ghost var s1 := Goto(st, t, AwaitLock);
      VerifyApprovalOn(s0, st, t, s1);
      st := s1;
      var reply, verified := Decide(s0, t, m, patience, fate);
      match reply
      case Answer(r) => v := PublishAndAnswer(s0, t, m, r, fate);
      case Refused(_) => assert false;
      case Broken => v := Fail(s0, t, m, verified);
      case Died => v := Gone;
    }

    // An approval that nothing goes wrong with ends with its decision on file, and acked
    // exactly if publishing a record that hashes like the decision returned.
    ghost predicate Handled(s: State, t: nat, m: Message, v: Verdict, patience: nat, fate: Fate)
      requires m.Approval?
      reads this
    {
      && v == (if fate.publishFails then Nacked else Acked) && IdOf(m) in decisions
      && (v.Acked? ==> exists r :: FromDelivery(t, r) in st.history.published && Mirrors(r, m))
      && (IdOf(m) in s.disk.decisions ==>
            decisions == s.disk.decisions && st.history.submissions == s.history.submissions)
      && (IdOf(m) !in s.disk.decisions && AttemptKey(cfg, m.binding) !in s.disk.attempts ==>
            Settled(s, m, decisions[IdOf(m)], IdOf(m) !in s.disk.claims, CourseFrom(fate, 0, patience), fate.exchange))
    }

    // A direct order that nothing goes wrong with: a refused one is acked without a result,
    // any other is answered as its publication goes.
    ghost predicate HandledDirect(s: State, m: Message, v: Verdict, patience: nat, fate: Fate)
      requires m.Direct?
      reads this
    {
      var course := CourseFrom(fate, 0, patience);
      var unmarked := AttemptKey(cfg, m.binding) !in s.disk.attempts;
      && v == (if fate.publishFails && !(unmarked && course.Blocks?) then Nacked else Acked)
      && if unmarked && course.Submits? then SubmittedOnce(s, m, fate.exchange)
         else st.history.submissions == s.history.submissions
    }

    method HandleDirect(ghost s0: State, ghost t: nat, m: Message, patience: nat, fate: Fate) returns (v: Verdict)
      requires Valid() && m.Direct? && Stands(t, m, Entered, false) && Reaches(s0, st)
      modifies this
      ensures Valid() && Reaches(s0, st) && Answered(old(st), t, v)
      ensures fate.calm && !cfg.approvalRequired ==> HandledDirect(old(st), m, v, patience, fate)
    {
      if cfg.approvalRequired {
        v := Fail(s0, t, m, false);
        return;
      }
      ghost var s1 := st.(threads := st.threads[t := Thread(m, Pc.Execute(true, false), true)]);
      VerifyDirectOn(s0, st, t, s1);
      st := s1;
      var reply, retries := ExecuteWithRetry(s0, t, m, false, patience, fate);
      match reply
      case Answer(r) =>
        var received: int := *;
        var sealed := Seal(m, true, r, retries);
        var ready := DecorateDirect(sealed, m.createdAt, received);
        ghost var s2 := Goto(st, t, Ready(ready));
        DecorateResultOn(s0, st, t, received, s2);
        st := s2;
        v := PublishAndAnswer(s0, t, m, ready, fate);
      case Refused(_) => v := Fail(s0, t, m, true);
      case Broken => v := Fail(s0, t, m, true);
      case Died => v := Gone;
    }

    // Deliveries handled one after the other, until the process dies or none is left. Each
    // gets its one answer, and no other answer is given; what all runs keep is kept.
    method Serve(visits: seq<Visit>) returns (verdicts: seq<Verdict>)
      requires Valid() && st.lock == None
      modifies this
      ensures Valid() && Reaches(old(st), st) && (Safe(old(st)) ==> Safe(st))
      ensures |verdicts| <= |visits| && (forall n :: 0 <= n < |verdicts| - 1 ==> verdicts[n] != Gone)
      ensures |verdicts| < |visits| ==> verdicts != [] && verdicts[|verdicts| - 1] == Gone
      ensures AnsweredSoFar(old(st), st, visits, verdicts)
    {
      verdicts := [];
      ghost var s0 := st;
      Runs.ReachesSelf(Step, s0);
      NoneYet(s0, visits);
      for n := 0 to |visits|
        invariant Valid() && Reaches(s0, st) && |verdicts| == n && st.lock == None
        invariant forall i :: 0 <= i < n ==> verdicts[i] != Gone
        invariant AnsweredSoFar(s0, st, visits, verdicts)
      {
        var v := ServeNext(s0, visits, verdicts);
        verdicts := verdicts + [v];
        if v == Gone { break; }
      }
      if Safe(s0) { SafeStays(s0, st); }
    }

    method ServeNext(ghost s0: State, visits: seq<Visit>, verdicts: seq<Verdict>) returns (v: Verdict)
      requires Valid() && Reaches(s0, st) && st.lock == None
      requires |verdicts| < |visits| && AnsweredSoFar(s0, st, visits, verdicts)
      modifies this
      ensures Valid() && Reaches(s0, st) && (v != Gone ==> st.lock == None)
      ensures AnsweredSoFar(s0, st, visits, verdicts + [v])
    {
      ghost var before := st;
      var visit := visits[|verdicts|];
      v := Callback(visit.message, visit.orderly, visit.patience, visit.fate);
      Runs.ReachesOn(Step, s0, before, st);
      OneMore(s0, before, st, visits, verdicts, v);
    }
  }
}
