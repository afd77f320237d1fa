// Every source action, as one more step of a path already taken. A path is a sequence of
// states from a given one on; the witness runs and the source's methods extend it action by
// action, and each of these lemmas spares them the choice among all actions that a step of
// the protocol may be.

module SourcePaths {
  import opened Common
  import opened ResultRecord
  import opened SourceProtocol
  import Runs

  lemma StartSettlingOn(s0: State, s: State, b: Binding, s': State)
    requires Reaches(s0, s) && StartSettling(s, b, s')
    ensures Reaches(s0, s')
  { Runs.ReachesStep(Step, s0, s, s'); }

  lemma SettleAtStartOn(s0: State, s: State, b: Binding, s': State)
    requires Reaches(s0, s) && SettleAtStart(s, b, s')
    ensures Reaches(s0, s')
  { Runs.ReachesStep(Step, s0, s, s'); }

  lemma StartCleanOn(s0: State, s: State, s': State)
    requires Reaches(s0, s) && StartClean(s, s')
    ensures Reaches(s0, s')
  { Runs.ReachesStep(Step, s0, s, s'); }

  lemma OpenOn(s0: State, s: State, b: Option<Binding>, s': State)
    requires Reaches(s0, s) && Open(s, b, s')
    ensures Reaches(s0, s')
  { Runs.ReachesStep(Step, s0, s, s'); }

  lemma StopOn(s0: State, s: State, s': State)
    requires Reaches(s0, s) && Stop(s, s')
    ensures Reaches(s0, s')
  { Runs.ReachesStep(Step, s0, s, s'); }

  lemma ReceiveOn(s0: State, s: State, t: nat, b: Binding, r: Record, s': State)
    requires Reaches(s0, s) && Receive(s, t, b, r, s')
    ensures Reaches(s0, s')
  { Runs.ReachesStep(Step, s0, s, s'); }

  lemma RecordFirstOn(s0: State, s: State, t: nat, needs: bool, s': State)
    requires Reaches(s0, s) && RecordFirst(s, t, needs, s')
    ensures Reaches(s0, s')
  { Runs.ReachesStep(Step, s0, s, s'); }

  lemma ReplaySameOn(s0: State, s: State, t: nat, s': State)
    requires Reaches(s0, s) && ReplaySame(s, t, s')
    ensures Reaches(s0, s')
  { Runs.ReachesStep(Step, s0, s, s'); }

  lemma LatchFaultOn(s0: State, s: State, t: nat, s': State)
    requires Reaches(s0, s) && LatchFault(s, t, s')
    ensures Reaches(s0, s')
  { Runs.ReachesStep(Step, s0, s, s'); }

  lemma RaiseFaultOn(s0: State, s: State, t: nat, s': State)
    requires Reaches(s0, s) && RaiseFault(s, t, s')
    ensures Reaches(s0, s')
  { Runs.ReachesStep(Step, s0, s, s'); }

  lemma NotifyOn(s0: State, s: State, t: nat, s': State)
    requires Reaches(s0, s) && Notify(s, t, s')
    ensures Reaches(s0, s')
  { Runs.ReachesStep(Step, s0, s, s'); }

  lemma StartPublishOn(s0: State, s: State, b: Binding, s': State)
    requires Reaches(s0, s) && StartPublish(s, b, s')
    ensures Reaches(s0, s')
  { Runs.ReachesStep(Step, s0, s, s'); }

  lemma SendOn(s0: State, s: State, reached: bool, returned: bool, s': State)
    requires Reaches(s0, s) && Send(s, reached, returned, s')
    ensures Reaches(s0, s')
  { Runs.ReachesStep(Step, s0, s, s'); }

  lemma WriteReceiptOn(s0: State, s: State, s': State)
    requires Reaches(s0, s) && WriteReceipt(s, s')
    ensures Reaches(s0, s')
  { Runs.ReachesStep(Step, s0, s, s'); }

  lemma ClearEventOn(s0: State, s: State, s': State)
    requires Reaches(s0, s) && ClearEvent(s, s')
    ensures Reaches(s0, s')
  { Runs.ReachesStep(Step, s0, s, s'); }

  lemma ResetStateOn(s0: State, s: State, s': State)
    requires Reaches(s0, s) && ResetState(s, s')
    ensures Reaches(s0, s')
  { Runs.ReachesStep(Step, s0, s, s'); }

  lemma SettleOn(s0: State, s: State, b: Binding, s': State)
    requires Reaches(s0, s) && Settle(s, b, s')
    ensures Reaches(s0, s')
  { Runs.ReachesStep(Step, s0, s, s'); }
}
