// The Telegram approval listener: one human decision per intent, and at most one run
// of the hand-off command for it. Files are replaced atomically; control may be lost
// between any two of them.

module ApprovalListener {
  import opened Common
  import opened Runs

  type Intent = string

  datatype DecisionStatus = Approved | Skipped | Expired

  datatype Decision = Decision(status: DecisionStatus, request: string)

  datatype Handoff = Completed | FailedNoRetry | AmbiguousNoRetry | NotConfigured | CommandInvalid

  // The state directory of every intent, and the command runs it has seen.
  datatype Snapshot = Snapshot(
    pending: map<Intent, string>,      // pending.json: the request the prompt was for
    approvals: map<Intent, Decision>,  // approval.json
    attempts: map<Intent, string>,     // handoff-attempt.json: the request handed off
    results: map<Intent, Handoff>,     // handoff-result.json
    runs: multiset<Intent>)

  const EMPTY := Snapshot(map[], map[], map[], map[], multiset{})

  predicate IsApproved(i: Intent, s: Snapshot) {
    i in s.approvals && s.approvals[i].status.Approved?
  }

  ghost predicate IntentOk(i: Intent, s: Snapshot) {
    && s.runs[i] <= 1
    && (i in s.approvals ==> i in s.pending && s.pending[i] == s.approvals[i].request)
    && (i in s.attempts ==> IsApproved(i, s) && s.attempts[i] == s.approvals[i].request)
    && (i !in s.attempts ==> s.runs[i] == 0)
    && (i in s.results && (s.results[i].Completed? || s.results[i].FailedNoRetry?) ==> s.runs[i] == 1)
    && (i in s.results && (s.results[i].NotConfigured? || s.results[i].CommandInvalid?) ==> i !in s.attempts)
  }

  ghost predicate Sound(s: Snapshot) {
    forall i :: IntentOk(i, s)
  }

  // One visit of the main loop, wherever it ends: nothing decided, attempted or
  // concluded is ever changed, and an attempt already on file is never run again.
  ghost predicate Advances(s: Snapshot, s': Snapshot) {
    && Sound(s) && Sound(s')
    && Extends(s.pending, s'.pending) && Extends(s.approvals, s'.approvals)
    && Extends(s.attempts, s'.attempts) && Extends(s.results, s'.results)
    && (forall i :: i in s.attempts || i in s.results ==> s'.runs[i] == s.runs[i])
    && (forall i :: i in s.attempts && i !in s.results && i in s'.results ==> s'.results[i].AmbiguousNoRetry?)
  }

  // ----- All runs

  ghost predicate IsHistory(visits: seq<Snapshot>) {
    IsPath(Advances, visits) && visits[0] == EMPTY
  }

  lemma HistorySound(visits: seq<Snapshot>, j: nat)
    requires IsHistory(visits) && j < |visits|
    ensures Sound(visits[j])
  {
    KeptAlong(Advances, Sound, visits, 0, j);
  }

  ghost predicate Decided(i: Intent, d: Decision, s: Snapshot) {
    i in s.approvals && s.approvals[i] == d
  }

  // The first decision written for an intent is final.
  lemma DecisionIsFinal(visits: seq<Snapshot>, i: nat, j: nat, intent: Intent)
    requires IsHistory(visits) && i <= j < |visits| && intent in visits[i].approvals
    ensures Decided(intent, visits[i].approvals[intent], visits[j])
  {
    var d := visits[i].approvals[intent];
    KeptAlong(Advances, s => Decided(intent, d, s), visits, i, j);
  }

  // The command runs at most once per intent, and only for an approved decision
  // whose attempt file was durable first.
  lemma HandoffRunsAtMostOnce(visits: seq<Snapshot>, j: nat, intent: Intent)
    requires IsHistory(visits) && j < |visits|
    ensures visits[j].runs[intent] <= 1
    ensures intent in visits[j].runs ==> IsApproved(intent, visits[j]) && intent in visits[j].attempts
                                         && visits[j].attempts[intent] == visits[j].approvals[intent].request
    ensures intent in visits[j].runs ==> intent in visits[j].pending
                                         && visits[j].pending[intent] == visits[j].attempts[intent]
  {
    HistorySound(visits, j);
    assert IntentOk(intent, visits[j]);
  }

  ghost predicate AttemptedWith(i: Intent, n: nat, s: Snapshot) {
    i in s.attempts && s.runs[i] == n
  }

  // After an attempt is on file, no later visit runs the command, however often the
  // listener restarts.
  lemma AttemptIsNeverRepeated(visits: seq<Snapshot>, i: nat, j: nat, intent: Intent)
    requires IsHistory(visits) && i <= j < |visits| && intent in visits[i].attempts
    ensures visits[j].runs[intent] == visits[i].runs[intent]
  {
    var n := visits[i].runs[intent];
    KeptAlong(Advances, s => AttemptedWith(intent, n, s), visits, i, j);
  }

  ghost predicate Concluded(i: Intent, r: Handoff, s: Snapshot) {
    i in s.results && s.results[i] == r
  }

  lemma ResultIsFinal(visits: seq<Snapshot>, i: nat, j: nat, intent: Intent)
    requires IsHistory(visits) && i <= j < |visits| && intent in visits[i].results
    ensures Concluded(intent, visits[i].results[intent], visits[j])
    ensures visits[j].runs[intent] == visits[i].runs[intent]
  {
    var r, n := visits[i].results[intent], visits[i].runs[intent];
    KeptAlong(Advances, s => Concluded(intent, r, s) && s.runs[intent] == n, visits, i, j);
  }

  ghost predicate UnknownSince(i: Intent, n: nat, s: Snapshot) {
    i in s.attempts && s.runs[i] == n && (i in s.results ==> s.results[i].AmbiguousNoRetry?)
  }

  // An attempt without a result never becomes a second run, and the one result it can
  // still get, over all restarts, is that nobody knows how it went.
  lemma AttemptWithoutResultStaysUnknown(visits: seq<Snapshot>, i: nat, j: nat, intent: Intent)
    requires IsHistory(visits) && i <= j < |visits|
    requires intent in visits[i].attempts && intent !in visits[i].results
    ensures visits[j].runs[intent] == visits[i].runs[intent]
    ensures intent in visits[j].results ==> visits[j].results[intent].AmbiguousNoRetry?
  {
    var n := visits[i].runs[intent];
    forall s, s' | UnknownSince(intent, n, s) && Advances(s, s') ensures UnknownSince(intent, n, s') {}
    KeptAlong(Advances, s => UnknownSince(intent, n, s), visits, i, j);
  }

  // ----- Waiting for the decision

  // One update from the bot; the callback is what validating it yields.
  datatype Callback = NoCallback | Rejected | Valid(approve: bool)
  datatype Update = Update(id: int, callback: Callback)

  // One round of polling: whether a cancellation file is there before and after the
  // request, what the request yields, and whether the prepared order is still valid.
  datatype Poll = Poll(cancelBefore: bool, updates: Option<seq<Update>>, cancelAfter: bool, stillValid: bool)

  function ActionOf(c: Callback): DecisionStatus
    requires c.Valid?
  {
    if c.approve then Approved else Skipped
  }

  function FirstValid(updates: seq<Update>): Option<DecisionStatus> {
    if updates == [] then None
    else if updates[0].callback.Valid? then Some(ActionOf(updates[0].callback))
    else FirstValid(updates[1..])
  }

  // What one round decides, if anything.
  function RoundDecision(p: Poll): Option<DecisionStatus> {
    if p.cancelBefore then Some(Expired)
    else if p.updates.None? then None
    else if p.cancelAfter then Some(Expired)
    else if FirstValid(p.updates.value).Some? then FirstValid(p.updates.value)
    else if !p.stillValid then Some(Expired)
    else None
  }

  function DecisionOf(polls: seq<Poll>): Option<DecisionStatus> {
    if polls == [] then None
    else if RoundDecision(polls[0]).Some? then RoundDecision(polls[0])
    else DecisionOf(polls[1..])
  }

  ghost predicate ApprovedAt(polls: seq<Poll>, k: nat, j: nat)
    requires k < |polls|
  {
    && polls[k].updates.Some? && j < |polls[k].updates.value|
    && polls[k].updates.value[j].callback == Valid(true)
    && !polls[k].cancelBefore && !polls[k].cancelAfter
    && (forall n :: 0 <= n < j ==> !polls[k].updates.value[n].callback.Valid?)
    && (forall m :: 0 <= m < k ==> RoundDecision(polls[m]).None?)
  }

  lemma {:induction false} FirstValidApproves(updates: seq<Update>)
    ensures FirstValid(updates) == Some(Approved)
       <==> exists j :: 0 <= j < |updates| && updates[j].callback == Valid(true)
                        && forall n :: 0 <= n < j ==> !updates[n].callback.Valid?
  {
    if updates != [] && !updates[0].callback.Valid? {
      FirstValidApproves(updates[1..]);
      if FirstValid(updates) == Some(Approved) {
        var j :| 0 <= j < |updates[1..]| && updates[1..][j].callback == Valid(true)
                 && forall n :: 0 <= n < j ==> !updates[1..][n].callback.Valid?;
        assert updates[j + 1].callback == Valid(true);
        assert forall n :: 0 < n < j + 1 ==> updates[n] == updates[1..][n - 1];
      }
      if j :| 0 <= j < |updates| && updates[j].callback == Valid(true)
              && forall n :: 0 <= n < j ==> !updates[n].callback.Valid? {
        assert updates[1..][j - 1].callback == Valid(true);
      }
    } else if updates != [] {
      if FirstValid(updates) == Some(Approved) { assert updates[0].callback == Valid(true); }
    }
  }

  // An intent is approved exactly when some round holds a valid approval that no
  // valid skip, cancellation or expiry came before.
  lemma {:induction false} ApprovedMeansPressed(polls: seq<Poll>)
    ensures DecisionOf(polls) == Some(Approved) <==>
              exists k, j :: 0 <= k < |polls| && 0 <= j && ApprovedAt(polls, k, j)
  {
    if polls == [] {
    } else if RoundDecision(polls[0]).Some? {
      if polls[0].updates.Some? { FirstValidApproves(polls[0].updates.value); }
      if DecisionOf(polls) == Some(Approved) {
        var us := polls[0].updates.value;
        var j :| 0 <= j < |us| && us[j].callback == Valid(true) && forall n :: 0 <= n < j ==> !us[n].callback.Valid?;
        assert ApprovedAt(polls, 0, j);
      }
      if k, j :| 0 <= k < |polls| && 0 <= j && ApprovedAt(polls, k, j) {
        assert k == 0;
      }
    } else {
      ApprovedMeansPressed(polls[1..]);
      if k, j :| 0 <= k < |polls[1..]| && 0 <= j && ApprovedAt(polls[1..], k, j) {
        assert forall m :: 0 < m < k + 1 ==> polls[m] == polls[1..][m - 1];
        assert ApprovedAt(polls, k + 1, j);
      }
      if k, j :| 0 <= k < |polls| && 0 <= j && ApprovedAt(polls, k, j) {
        if k == 0 {
          FirstValidApproves(polls[0].updates.value);
          assert false;
        }
        assert ApprovedAt(polls[1..], k - 1, j) by {
          assert forall m :: 0 <= m < k - 1 ==> polls[1..][m] == polls[m + 1];
        }
      }
    }
  }

  // How many updates of a batch are looked at: up to and with the first valid one.
  function Examined(updates: seq<Update>): nat {
    if updates == [] then 0
    else if updates[0].callback.Valid? then 1
    else 1 + Examined(updates[1..])
  }

  lemma {:induction false} ExaminedMeans(updates: seq<Update>)
    ensures Examined(updates) <= |updates|
    ensures forall k :: 0 <= k < Examined(updates) - 1 ==> !updates[k].callback.Valid?
    ensures FirstValid(updates).Some? <==> Examined(updates) > 0 && updates[Examined(updates) - 1].callback.Valid?
    ensures FirstValid(updates).Some? ==>
              FirstValid(updates) == Some(ActionOf(updates[Examined(updates) - 1].callback))
    ensures FirstValid(updates).None? ==> Examined(updates) == |updates|
  {
    if updates != [] && !updates[0].callback.Valid? { ExaminedMeans(updates[1..]); }
  }

  // The offset that makes the next request skip the first n updates of a batch, and no more.
  ghost predicate Passes(offset: int, from: int, updates: seq<Update>, n: nat)
    requires n <= |updates|
  {
    && offset >= from && (forall k :: 0 <= k < n && updates[k].id >= 0 ==> updates[k].id < offset)
    && (offset == from || exists k :: 0 <= k < n && updates[k].id >= 0 && offset == updates[k].id + 1)
  }

  // The loop over one batch: the offset passes every update it has looked at, the deciding
  // one included, and none beyond.
  method ExamineUpdates(updates: seq<Update>, from: int) returns (action: Option<DecisionStatus>, offset: int)
    ensures action == FirstValid(updates)
    ensures Examined(updates) <= |updates| && Passes(offset, from, updates, Examined(updates))
  {
    offset := from;
    ExaminedMeans(updates);
    for i := 0 to |updates|
      invariant FirstValid(updates) == FirstValid(updates[i..]) && Examined(updates) == i + Examined(updates[i..])
      invariant Passes(offset, from, updates, i)
    {
      var u := updates[i];
      if u.id >= 0 && u.id + 1 > offset { offset := u.id + 1; }
      if u.callback.Valid? { return Some(ActionOf(u.callback)), offset; }
      assert updates[i..][1..] == updates[i + 1..];
    }
    action := None;
  }

  // A directory with one more file, if there is one to write.
  ghost function Filed(results: map<Intent, Handoff>, i: Intent, r: Option<Handoff>): map<Intent, Handoff> {
    if r.Some? then results[i := r.value] else results
  }

  // ----- The code

  datatype Visit = Done | Raised | Killed

  // Where the process dies in one visit, if it does.
  datatype Death = Survives | BeforePrompt | BeforeHandoff | AfterAttempt | AfterRun

  // How the command ended: with an exit code, or in an exception such as the timeout.
  datatype Exit = Code(value: int) | NoCode

  // What one visit finds: whether the prepared order validates against the approval, the
  // state of the command, whether the frozen copy still has the same request.
  datatype Setting = Setting(bound: bool, configured: bool, executable: bool, frozen: bool, exit: Exit, death: Death)
  {
    predicate Runnable() {
      bound && configured && executable && frozen
    }
  }

  function Judged(exit: Exit): Handoff {
    match exit
    case NoCode => AmbiguousNoRetry
    case Code(value) => if value == 0 then Completed else FailedNoRetry
  }

  // The result a hand-off of an intent without one must end with, if it gets that far.
  function DueResult(attempted: bool, s: Setting): Option<Handoff> {
    if !s.bound then None
    else if attempted then Some(AmbiguousNoRetry)
    else if !s.configured then Some(NotConfigured)
    else if !s.executable then Some(CommandInvalid)
    else if !s.frozen || s.death.AfterAttempt? || s.death.AfterRun? then None
    else Some(Judged(s.exit))
  }

  // ----- What one visit leaves on disk

  // The hand-off of an approved intent.
  function HandedOff(s: Snapshot, i: Intent, how: Setting): Snapshot
    requires IsApproved(i, s)
  {
    if !how.bound || i in s.results then s
    else if i in s.attempts then s.(results := s.results[i := AmbiguousNoRetry])
    else if !how.configured then s.(results := s.results[i := NotConfigured])
    else if !how.executable then s.(results := s.results[i := CommandInvalid])
    else if !how.frozen then s
    else
      var s1 := s.(attempts := s.attempts[i := s.approvals[i].request]);
      if how.death.AfterAttempt? then s1
      else if how.death.AfterRun? then s1.(runs := s1.runs + multiset{i})
      else s1.(runs := s1.runs + multiset{i}, results := s1.results[i := Judged(how.exit)])
  }

  // The intent a visit is for, the request of its prepared order, what the polling shows and
  // what the visit finds.
  datatype Input = Input(intent: Intent, request: string, polls: seq<Poll>, setting: Setting)
  {
    // The process lives until the hand-off.
    predicate GetsThere() {
      !setting.death.BeforePrompt? && !setting.death.BeforeHandoff?
    }
  }

  function After(s: Snapshot, v: Input): Snapshot {
    var i := v.intent;
    if i in s.approvals then
      if IsApproved(i, s) && v.GetsThere() then HandedOff(s, i, v.setting) else s
    else if v.setting.death.BeforePrompt? || (i in s.pending && s.pending[i] != v.request) then s
    else
      var s1 := s.(pending := s.pending[i := v.request]);
      var decision := DecisionOf(v.polls);
      if decision.None? then s1
      else
        var s2 := s1.(approvals := s1.approvals[i := Decision(decision.value, v.request)]);
        if decision.value.Approved? && v.GetsThere() then HandedOff(s2, i, v.setting) else s2
  }

  // ----- Histories with what each visit finds

  ghost predicate VisitAt(visits: seq<Snapshot>, inputs: seq<Input>, k: nat)
    requires k < |inputs| && |visits| == |inputs| + 1
  {
    visits[k + 1] == After(visits[k], inputs[k])
  }

  ghost predicate IsRun(visits: seq<Snapshot>, inputs: seq<Input>) {
    && |visits| == |inputs| + 1 && visits[0] == EMPTY
    && forall k {:trigger VisitAt(visits, inputs, k)} :: 0 <= k < |inputs| ==> VisitAt(visits, inputs, k)
  }

  lemma HandedOffAdvances(s: Snapshot, i: Intent, how: Setting)
    requires Sound(s) && IsApproved(i, s)
    ensures Advances(s, HandedOff(s, i, how))
  {
    var s' := HandedOff(s, i, how);
    assert IntentOk(i, s);
    forall k ensures IntentOk(k, s') { assert IntentOk(k, s); }
  }

  lemma DecidedAdvances(s: Snapshot, i: Intent, d: Decision)
    requires Sound(s) && i in s.pending && i !in s.approvals && s.pending[i] == d.request
    ensures Advances(s, s.(approvals := s.approvals[i := d]))
  {
    var s' := s.(approvals := s.approvals[i := d]);
    forall k ensures IntentOk(k, s') { assert IntentOk(k, s); }
  }

  lemma PromptedAdvances(s: Snapshot, i: Intent, request: string)
    requires Sound(s) && (i in s.pending ==> s.pending[i] == request)
    ensures Advances(s, s.(pending := s.pending[i := request]))
  {
    var s' := s.(pending := s.pending[i := request]);
    forall k ensures IntentOk(k, s') { assert IntentOk(k, s); }
  }

  // Parts of one visit of an intent that is not decided yet make one step.
  lemma AdvancesOn(s: Snapshot, s1: Snapshot, s2: Snapshot)
    requires Advances(s, s1) && Advances(s1, s2) && s1.attempts == s.attempts && s1.results == s.results
    requires s1.runs == s.runs
    ensures Advances(s, s2)
  {}

  lemma AfterAdvances(s: Snapshot, v: Input)
    requires Sound(s)
    ensures Advances(s, After(s, v))
  {
    var i := v.intent;
    if i in s.approvals {
      if IsApproved(i, s) && v.GetsThere() { HandedOffAdvances(s, i, v.setting); }
    } else if !v.setting.death.BeforePrompt? && (i in s.pending ==> s.pending[i] == v.request) {
      PromptedAdvances(s, i, v.request);
      var s1 := s.(pending := s.pending[i := v.request]);
      var decision := DecisionOf(v.polls);
      if decision.Some? {
        var d := Decision(decision.value, v.request);
        DecidedAdvances(s1, i, d);
        var s2 := s1.(approvals := s1.approvals[i := d]);
        AdvancesOn(s, s1, s2);
        if d.status.Approved? && v.GetsThere() {
          HandedOffAdvances(s2, i, v.setting);
          AdvancesOn(s, s2, HandedOff(s2, i, v.setting));
        }
      }
    }
  }

  lemma {:induction false} RunSound(visits: seq<Snapshot>, inputs: seq<Input>, k: nat)
    requires IsRun(visits, inputs) && k < |visits|
    ensures Sound(visits[k])
  {
    if k > 0 {
      RunSound(visits, inputs, k - 1);
      assert VisitAt(visits, inputs, k - 1);
      AfterAdvances(visits[k - 1], inputs[k - 1]);
    }
  }

  lemma RunIsHistory(visits: seq<Snapshot>, inputs: seq<Input>)
    requires IsRun(visits, inputs)
    ensures IsHistory(visits)
  {
    forall k | 0 <= k < |visits| - 1 ensures StepAt(Advances, visits, k) {
      RunSound(visits, inputs, k);
      assert VisitAt(visits, inputs, k);
      AfterAdvances(visits[k], inputs[k]);
    }
  }

  // The visit is one of this intent, its prepared order still validates against the
  // approval, and the process lives until the hand-off.
  predicate Concludes(v: Input, i: Intent) {
    v.intent == i && v.setting.bound && v.GetsThere()
  }

  // An attempt left without a result gets one exactly when some later visit of the intent
  // finds the order still valid and lives to the hand-off; if none does, it stays without.
  lemma {:induction false} AttemptEndsAmbiguousIff(visits: seq<Snapshot>, inputs: seq<Input>, i: nat, j: nat,
                                                   intent: Intent)
    requires IsRun(visits, inputs) && i <= j < |visits|
    requires intent in visits[i].attempts && intent !in visits[i].results
    ensures intent in visits[j].results <==> exists k :: i <= k < j && Concludes(inputs[k], intent)
    ensures intent in visits[j].results ==> visits[j].results[intent].AmbiguousNoRetry?
    ensures intent in visits[j].attempts && visits[j].runs[intent] == visits[i].runs[intent]
    decreases j - i
  {
    RunIsHistory(visits, inputs);
    HistorySound(visits, i);
    AttemptWithoutResultStaysUnknown(visits, i, j, intent);
    if i < j {
      AttemptEndsAmbiguousIff(visits, inputs, i, j - 1, intent);
      HistorySound(visits, j - 1);
      assert VisitAt(visits, inputs, j - 1) && IntentOk(intent, visits[j - 1]);
      var s, v := visits[j - 1], inputs[j - 1];
      if intent !in s.results {
        OneVisit(s, v, intent);
        if Concludes(v, intent) { assert i <= j - 1 < j && Concludes(inputs[j - 1], intent); }
      }
    }
  }

  lemma OneVisit(s: Snapshot, v: Input, intent: Intent)
    requires IntentOk(intent, s) && intent in s.attempts && intent !in s.results
    ensures intent in After(s, v).results <==> Concludes(v, intent)
    ensures intent in After(s, v).attempts
  {}

  class Listener {
    var pending: map<Intent, string>
    var approvals: map<Intent, Decision>
    var attempts: map<Intent, string>
    var results: map<Intent, Handoff>
    ghost var runs: multiset<Intent>

    ghost function Snap(): Snapshot
      reads this
    {
      Snapshot(pending, approvals, attempts, results, runs)
    }

    ghost predicate Valid()
      reads this
    {
      Sound(Snap())
    }

    // _wait_for_decision over any finite number of rounds; none decides nothing yet.
    method WaitForDecision(i: Intent, polls: seq<Poll>) returns (decision: Option<DecisionStatus>)
      requires Valid() && i in pending && i !in approvals && i !in attempts
      modifies this`approvals
      ensures Valid() && decision == DecisionOf(polls)
      ensures approvals == if decision.Some? then old(approvals)[i := Decision(decision.value, pending[i])]
                           else old(approvals)
    {
      var offset := 0;
      for k := 0 to |polls|
        invariant DecisionOf(polls) == DecisionOf(polls[k..]) && approvals == old(approvals) && offset >= 0
      {
        var p := polls[k];
        assert polls[k..][1..] == polls[k + 1..];
        if p.cancelBefore {
          WriteDecision(i, Expired);
          return Some(Expired);
        }
        if p.updates.None? { continue; }
        if p.cancelAfter {
          WriteDecision(i, Expired);
          return Some(Expired);
        }
        var action;
        action, offset := ExamineUpdates(p.updates.value, offset);
        if action.Some? {
          WriteDecision(i, action.value);
          return action;
        }
        if !p.stillValid {
          WriteDecision(i, Expired);
          return Some(Expired);
        }
      }
      decision := None;
    }

    method WriteDecision(i: Intent, status: DecisionStatus)
      requires Valid() && i in pending && i !in approvals && i !in attempts
      modifies this`approvals
      ensures Valid() && approvals == old(approvals)[i := Decision(status, pending[i])]
    {
      assert IntentOk(i, Snap());
      approvals := approvals[i := Decision(status, pending[i])];
      assert forall k :: k != i ==> IntentOk(k, old(Snap())) ==> IntentOk(k, Snap());
    }

    // _dispatch_approved_handoff for an approved record.
    method DispatchApprovedHandoff(i: Intent, s: Setting) returns (visit: Visit)
      requires Valid() && IsApproved(i, Snap())
      modifies this`attempts, this`results, this`runs
      ensures Advances(old(Snap()), Snap()) && Snap() == HandedOff(old(Snap()), i, s)
      ensures !s.bound ==> visit.Raised? && Snap() == old(Snap())
      // an attempt without a result ends as ambiguous, and never as a second run
      ensures i !in old(results) && s.death.Survives? ==>
                results == Filed(old(results), i, DueResult(i in old(attempts), s))
      ensures i in old(attempts) ==> attempts == old(attempts) && runs == old(runs)
      ensures i in old(results) ==> Snap() == old(Snap())
      // the command runs exactly if nothing was attempted or concluded before, it is usable,
      // and the process outlives the attempt file
      ensures var runs' := i !in old(attempts) && i !in old(results) && s.Runnable() && !s.death.AfterAttempt?;
              runs == if runs' then old(runs) + multiset{i} else old(runs)
      ensures i in attempts && i !in old(attempts) <==> i !in old(attempts) && i !in old(results) && s.Runnable()
    {
      if !s.bound { return Raised; }
      if i in results { return Done; }
      if i in attempts {
        Conclude(i, AmbiguousNoRetry);
        return Done;
      }
      if !s.configured {
        Conclude(i, NotConfigured);
        return Done;
      }
      if !s.executable {
        Conclude(i, CommandInvalid);
        return Done;
      }
      if !s.frozen { return Raised; }
      visit := RunCommand(i, s);
    }

    method Conclude(i: Intent, result: Handoff)
      requires Valid() && i !in results
      requires result.Completed? || result.FailedNoRetry? ==> runs[i] == 1
      requires result.NotConfigured? || result.CommandInvalid? ==> i !in attempts
      modifies this`results
      ensures Valid() && results == old(results)[i := result]
    {
      results := results[i := result];
      assert forall k :: k != i ==> IntentOk(k, old(Snap())) ==> IntentOk(k, Snap());
      assert IntentOk(i, old(Snap()));
    }

    // The attempt file first, the command second, the result third.
    method RunCommand(i: Intent, s: Setting) returns (visit: Visit)
      requires Valid() && IsApproved(i, Snap()) && i !in attempts && i !in results
      modifies this`attempts, this`results, this`runs
      ensures Valid() && attempts == old(attempts)[i := approvals[i].request]
      ensures runs == if s.death.AfterAttempt? then old(runs) else old(runs) + multiset{i}
      ensures results == if s.death.AfterAttempt? || s.death.AfterRun? then old(results)
                         else old(results)[i := Judged(s.exit)]
    {
      WriteAttempt(i);
      if s.death.AfterAttempt? { return Killed; }
      CountRun(i);
      if s.death.AfterRun? { return Killed; }
      Conclude(i, Judged(s.exit));
      return Done;
    }

    method WriteAttempt(i: Intent)
      requires Valid() && IsApproved(i, Snap()) && i !in attempts && i !in results
      modifies this`attempts
      ensures Valid() && attempts == old(attempts)[i := approvals[i].request] && runs[i] == 0
    {
      assert IntentOk(i, Snap());
      attempts := attempts[i := approvals[i].request];
      assert forall k :: k != i ==> IntentOk(k, old(Snap())) ==> IntentOk(k, Snap());
    }

    // The subprocess starts.
    ghost method CountRun(i: Intent)
      requires Valid() && i in attempts && runs[i] == 0
      modifies this`runs
      ensures Valid() && runs == old(runs) + multiset{i} && runs[i] == 1
    {
      runs := runs + multiset{i};
      assert IntentOk(i, old(Snap()));
      assert forall k :: k != i ==> IntentOk(k, old(Snap())) ==> IntentOk(k, Snap());
    }

    // The per-intent branch of main for a prepared order with the given request.
    method VisitIntent(i: Intent, request: string, polls: seq<Poll>, s: Setting) returns (visit: Visit)
      requires Valid()
      modifies this
      ensures Advances(old(Snap()), Snap()) && Snap() == After(old(Snap()), Input(i, request, polls, s))
      ensures i in old(approvals) && !IsApproved(i, old(Snap())) ==> Snap() == old(Snap())
      // a prompt is never reused for another request
      ensures i in old(pending) && i !in old(approvals) && old(pending)[i] != request ==>
                visit.Raised? && Snap() == old(Snap())
      // the decision is what the polling shows, and it is for the prompted request
      ensures approvals == if old(Undecided(i, request)) && !s.death.BeforePrompt? && DecisionOf(polls).Some?
                           then old(approvals)[i := Decision(DecisionOf(polls).value, request)]
                           else old(approvals)
      // the command runs exactly on approval, old or new, if nothing stands in the way
      ensures runs == if i !in old(attempts) && i !in old(results) && s.Runnable() && !s.death.AfterAttempt?
                         && IsApproved(i, Snap()) && !s.death.BeforePrompt? && !s.death.BeforeHandoff?
                      then old(runs) + multiset{i} else old(runs)
      ensures s.death.Survives? && IsApproved(i, Snap()) && i !in old(results) ==>
                results == Filed(old(results), i, DueResult(i in old(attempts), s))
    {
      assert IntentOk(i, Snap());
      if i in approvals {
        if !approvals[i].status.Approved? { return Done; }
        if s.death.BeforePrompt? || s.death.BeforeHandoff? { return Killed; }
        visit := DispatchApprovedHandoff(i, s);
        return Done; // a failed validation only updates the status file
      }
      if i in pending {
        if pending[i] != request { return Raised; }
      }
      visit := Prompted(i, request, polls, s);
    }

    // No decision yet, and no prompt for another request.
    ghost predicate Undecided(i: Intent, request: string)
      reads this
    {
      i !in approvals && (i in pending ==> pending[i] == request)
    }

    // The branch without an approval record: prompt, wait, hand off.
    method Prompted(i: Intent, request: string, polls: seq<Poll>, s: Setting) returns (visit: Visit)
      requires Valid() && Undecided(i, request)
      modifies this
      ensures Advances(old(Snap()), Snap()) && Snap() == After(old(Snap()), Input(i, request, polls, s))
      ensures approvals == if !s.death.BeforePrompt? && DecisionOf(polls).Some?
                           then old(approvals)[i := Decision(DecisionOf(polls).value, request)]
                           else old(approvals)
      ensures runs == if i !in old(results) && s.Runnable() && !s.death.AfterAttempt? && !s.death.BeforeHandoff?
                         && IsApproved(i, Snap())
                      then old(runs) + multiset{i} else old(runs)
      ensures s.death.Survives? && IsApproved(i, Snap()) && i !in old(results) ==>
                results == Filed(old(results), i, DueResult(false, s))
    {
      if s.death.BeforePrompt? { return Killed; }
      var decision := PromptAndWait(i, request, polls);
      if decision.None? { return Killed; }
      if decision.value.Approved? {
        if s.death.BeforeHandoff? { return Killed; }
        visit := DispatchApprovedHandoff(i, s);
        return;
      }
      return Done;
    }

    method PromptAndWait(i: Intent, request: string, polls: seq<Poll>) returns (decision: Option<DecisionStatus>)
      requires Valid() && Undecided(i, request)
      modifies this`pending, this`approvals
      ensures Valid() && Advances(old(Snap()), Snap()) && decision == DecisionOf(polls)
      ensures i !in attempts && pending == old(pending)[i := request]
      ensures approvals == if decision.Some? then old(approvals)[i := Decision(decision.value, request)]
                           else old(approvals)
    {
      assert IntentOk(i, Snap());
      if i !in pending { AddPending(i, request); }
      decision := WaitForDecision(i, polls);
    }

    method AddPending(i: Intent, request: string)
      requires Valid() && i !in pending && i !in approvals
      modifies this`pending
      ensures Valid() && pending == old(pending)[i := request]
    {
      pending := pending[i := request];
      assert forall k :: k != i ==> IntentOk(k, old(Snap())) ==> IntentOk(k, Snap());
      assert IntentOk(i, old(Snap()));
    }
  }
}
