// The receiver's admission gate: a count of running callbacks, an idle event and
// an accepting flag, guarded by one lock, with shutdown racing the callbacks.

module CallbackGate {
  import opened Common
  import opened Runs

  datatype Pc =
    | Arriving   // before the admission lock
    | Entering   // holds the lock, flag not read yet
    | Counted    // holds the lock, counted, idle not cleared yet
    | Working    // admitted; the body of the callback runs
    | Finishing  // holds the lock on the way out, still counted
    | Discounted // holds the lock, no longer counted

  datatype Holder = Callback(thread: nat) | Shutdown

  datatype Stop = Up | Stopping | Waiting(alreadyIdle: bool) | Drained | TimedOut

  datatype State = State(
    active: int, idle: bool, accepting: bool,
    lock: Option<Holder>, threads: map<nat, Pc>, stop: Stop)

  const INITIAL := State(0, true, true, None, map[], Up)

  predicate Holding(pc: Pc) { pc.Entering? || pc.Counted? || pc.Finishing? || pc.Discounted? }

  predicate InCount(pc: Pc) { pc.Counted? || pc.Working? || pc.Finishing? }

  function Running(s: State): set<nat> {
    set t | t in s.threads && InCount(s.threads[t])
  }

  // ----- Steps

  predicate Arrive(s: State, t: nat, s': State) {
    t !in s.threads && s' == s.(threads := s.threads[t := Arriving])
  }

  predicate Acquire(s: State, t: nat, s': State) {
    && t in s.threads && s.threads[t].Arriving? && s.lock.None?
    && s' == s.(lock := Some(Callback(t)), threads := s.threads[t := Entering])
  }

  // Not accepting any more: acknowledge and return without starting.
  predicate Refuse(s: State, t: nat, s': State) {
    && t in s.threads && s.threads[t].Entering? && !s.accepting
    && s' == s.(lock := None, threads := s.threads - {t})
  }

  predicate Count(s: State, t: nat, s': State) {
    && t in s.threads && s.threads[t].Entering? && s.accepting
    && s' == s.(active := s.active + 1, threads := s.threads[t := Counted])
  }

  predicate ClearIdle(s: State, t: nat, s': State) {
    && t in s.threads && s.threads[t].Counted?
    && s' == s.(idle := false, lock := None, threads := s.threads[t := Working])
  }

  predicate Finish(s: State, t: nat, s': State) {
    && t in s.threads && s.threads[t].Working? && s.lock.None?
    && s' == s.(lock := Some(Callback(t)), threads := s.threads[t := Finishing])
  }

  predicate Discount(s: State, t: nat, s': State) {
    && t in s.threads && s.threads[t].Finishing?
    && s' == s.(active := s.active - 1, threads := s.threads[t := Discounted])
  }

  predicate Depart(s: State, t: nat, s': State) {
    && t in s.threads && s.threads[t].Discounted?
    && s' == s.(idle := s.active == 0 || s.idle, lock := None, threads := s.threads - {t})
  }

  // An interrupt may begin the stop again.
  predicate BeginStop(s: State, s': State) {
    s.lock.None? && s' == s.(lock := Some(Shutdown), stop := Stopping)
  }

  predicate TurnOff(s: State, s': State) {
    && s.lock == Some(Shutdown)
    && s' == s.(accepting := false, lock := None, stop := Waiting(s.active == 0))
  }

  // The idle event is waited for without the lock.
  predicate FinishWait(s: State, s': State) {
    s.stop.Waiting? && (s.stop.alreadyIdle || s.idle) && s' == s.(stop := Drained)
  }

  predicate GiveUpWaiting(s: State, s': State) {
    s.stop == Waiting(false) && s' == s.(stop := TimedOut)
  }

  ghost predicate CallbackStep(s: State, t: nat, s': State) {
    Arrive(s, t, s') || Acquire(s, t, s') || Refuse(s, t, s') || Count(s, t, s')
    || ClearIdle(s, t, s') || Finish(s, t, s') || Discount(s, t, s') || Depart(s, t, s')
  }

  ghost predicate Step(s: State, s': State) {
    || (exists t: nat :: CallbackStep(s, t, s'))
    || BeginStop(s, s') || TurnOff(s, s') || FinishWait(s, s') || GiveUpWaiting(s, s')
  }

  // ----- The invariant

  ghost predicate LockOk(s: State) {
    && (s.lock == Some(Shutdown) <==> s.stop.Stopping?)
    && forall t :: t in s.threads ==> (Holding(s.threads[t]) <==> s.lock == Some(Callback(t)))
  }

  // Between the two writes of an admission the event lags one behind the count;
  // between the two writes of a departure it is clear.
  ghost predicate IdleOk(s: State) {
    && (s.lock.Some? && s.lock.value.Callback? ==> s.lock.value.thread in s.threads)
    && if s.lock.Some? && s.lock.value.Callback? && s.threads[s.lock.value.thread].Counted?
       then s.idle <==> s.active == 1
       else if s.lock.Some? && s.lock.value.Callback? && s.threads[s.lock.value.thread].Discounted? then !s.idle
       else s.idle <==> s.active == 0
  }

  ghost predicate StopOk(s: State) {
    && (s.stop.Waiting? || s.stop.Drained? || s.stop.TimedOut? ==> !s.accepting)
    && (!s.accepting ==> !s.stop.Up? && forall t :: t in s.threads ==> !s.threads[t].Counted?)
    && (s.stop == Waiting(true) || s.stop == Drained ==> s.active == 0)
  }

  ghost predicate Inv(s: State) {
    s.active == |Running(s)| && LockOk(s) && IdleOk(s) && StopOk(s)
  }

  // One thread's move changes the running set by that thread at most.
  lemma RunningMoves(s: State, t: nat, pc: Pc, s': State)
    requires s'.threads == s.threads[t := pc]
    ensures Running(s') == if InCount(pc) then Running(s) + {t} else Running(s) - {t}
  {}

  lemma ArriveKeeps(s: State, t: nat, s': State)
    requires Inv(s) && Arrive(s, t, s')
    ensures Inv(s') && Running(s') == Running(s)
  { RunningMoves(s, t, Arriving, s'); }

  lemma AcquireKeeps(s: State, t: nat, s': State)
    requires Inv(s) && Acquire(s, t, s')
    ensures Inv(s') && Running(s') == Running(s)
  { RunningMoves(s, t, Entering, s'); }

  lemma RefuseKeeps(s: State, t: nat, s': State)
    requires Inv(s) && Refuse(s, t, s')
    ensures Inv(s') && Running(s') == Running(s)
  { assert Running(s') == Running(s); }

  lemma CountKeeps(s: State, t: nat, s': State)
    requires Inv(s) && Count(s, t, s')
    ensures Inv(s') && Running(s') == Running(s) + {t}
  { RunningMoves(s, t, Counted, s'); }

  lemma ClearIdleKeeps(s: State, t: nat, s': State)
    requires Inv(s) && ClearIdle(s, t, s')
    ensures Inv(s') && Running(s') == Running(s)
  { RunningMoves(s, t, Working, s'); assert t in Running(s); assert Running(s') == Running(s); }

  lemma FinishKeeps(s: State, t: nat, s': State)
    requires Inv(s) && Finish(s, t, s')
    ensures Inv(s') && Running(s') == Running(s)
  { RunningMoves(s, t, Finishing, s'); assert t in Running(s); assert Running(s') == Running(s); }

  lemma DiscountKeeps(s: State, t: nat, s': State)
    requires Inv(s) && Discount(s, t, s')
    ensures Inv(s') && Running(s') == Running(s) - {t}
  { RunningMoves(s, t, Discounted, s'); }

  lemma DepartKeeps(s: State, t: nat, s': State)
    requires Inv(s) && Depart(s, t, s')
    ensures Inv(s') && Running(s') == Running(s)
  { assert Running(s') == Running(s); }

  // Once the flag is off, no step admits anyone.
  lemma StepKeeps(s: State, s': State)
    requires Inv(s) && Step(s, s')
    ensures Inv(s')
    ensures !s.accepting ==> !s'.accepting && Running(s') <= Running(s)
  {
    if t: nat :| CallbackStep(s, t, s') {
      if Arrive(s, t, s') { ArriveKeeps(s, t, s'); }
      else if Acquire(s, t, s') { AcquireKeeps(s, t, s'); }
      else if Refuse(s, t, s') { RefuseKeeps(s, t, s'); }
      else if Count(s, t, s') { CountKeeps(s, t, s'); }
      else if ClearIdle(s, t, s') { ClearIdleKeeps(s, t, s'); }
      else if Finish(s, t, s') { FinishKeeps(s, t, s'); }
      else if Discount(s, t, s') { DiscountKeeps(s, t, s'); }
      else { DepartKeeps(s, t, s'); }
    } else {
      assert Running(s') == Running(s);
    }
  }

  // ----- All runs, from the first callback to the last

  ghost predicate IsRun(run: seq<State>) {
    IsPath(Step, run) && run[0] == INITIAL
  }

  lemma RunKeeps(run: seq<State>, i: nat)
    requires IsRun(run) && i < |run|
    ensures Inv(run[i])
  {
    assert Running(INITIAL) == {};
    forall s, s' | Inv(s) && Step(s, s') ensures Inv(s') { StepKeeps(s, s'); }
    KeptAlong(Step, Inv, run, 0, i);
  }

  // The event is set exactly when no callback runs, whenever the lock is free.
  lemma IdleMeansNoneRunning(run: seq<State>, i: nat)
    requires IsRun(run) && i < |run| && run[i].lock.None?
    ensures run[i].idle <==> Running(run[i]) == {}
    ensures run[i].active == |Running(run[i])|
  {
    RunKeeps(run, i);
  }

  ghost predicate Within(cap: set<nat>, s: State) {
    Inv(s) && !s.accepting && Running(s) <= cap
  }

  // After the flag is off, the running callbacks only become fewer.
  lemma NoneStartsAfterStop(run: seq<State>, i: nat, j: nat)
    requires IsRun(run) && i <= j < |run| && !run[i].accepting
    ensures Running(run[j]) <= Running(run[i]) && !run[j].accepting
  {
    RunKeeps(run, i);
    var cap := Running(run[i]);
    forall s, s' | Within(cap, s) && Step(s, s') ensures Within(cap, s') { StepKeeps(s, s'); }
    KeptAlong(Step, s => Within(cap, s), run, i, j);
  }

  // A drain that did not time out leaves none running, then or ever after.
  lemma DrainedForever(run: seq<State>, i: nat, j: nat)
    requires IsRun(run) && i <= j < |run| && run[i].stop.Drained?
    ensures Running(run[j]) == {}
  {
    RunKeeps(run, i);
    NoneStartsAfterStop(run, i, j);
  }

  // A drain that times out promises nothing: a callback may still be at work.
  lemma TimeoutLeavesWork() returns (run: seq<State>)
    ensures IsRun(run) && run[|run| - 1].stop.TimedOut? && Running(run[|run| - 1]) == {0}
  {
    var s1 := INITIAL.(threads := map[0 := Arriving]);
    var s2 := s1.(lock := Some(Callback(0)), threads := s1.threads[0 := Entering]);
    var s3 := s2.(active := 1, threads := s2.threads[0 := Counted]);
    var s4 := s3.(idle := false, lock := None, threads := s3.threads[0 := Working]);
    var s5 := s4.(lock := Some(Shutdown), stop := Stopping);
    var s6 := s5.(accepting := false, lock := None, stop := Waiting(false));
    var s7 := s6.(stop := TimedOut);
    run := [INITIAL, s1, s2, s3, s4, s5, s6, s7];
    assert CallbackStep(INITIAL, 0, s1) && CallbackStep(s1, 0, s2);
    assert CallbackStep(s2, 0, s3) && CallbackStep(s3, 0, s4);
    forall i | 0 <= i < |run| - 1 ensures StepAt(Step, run, i) {
      assert Step(INITIAL, s1) && Step(s1, s2) && Step(s2, s3) && Step(s3, s4);
      assert Step(s4, s5) && Step(s5, s6) && Step(s6, s7);
    }
  }

  // ----- The code of the three critical sections

  class Gate {
    var active: int
    var accepting: bool
    var idle: bool
    ghost var st: State

    // Between critical sections the fields are those of a reachable state.
    ghost predicate Valid()
      reads this
    {
      && Reaches(Step, INITIAL, st) && st.lock.None?
      && st.active == active && st.accepting == accepting && st.idle == idle
    }

    ghost predicate Has(t: nat, pc: Pc)
      reads this
    {
      t in st.threads && st.threads[t] == pc
    }

    constructor ()
      ensures Valid() && accepting && idle && st == INITIAL
    {
      active, accepting, idle, st := 0, true, true, INITIAL;
      new;
      ReachesSelf(Step, st);
    }

    ghost method Move(s': State)
      requires Reaches(Step, INITIAL, st) && Step(st, s')
      modifies this`st
      ensures st == s' && Reaches(Step, INITIAL, st)
    {
      ReachesStep(Step, INITIAL, st, s');
      st := s';
    }

    // The first critical section of callback.
    method Enter(ghost t: nat) returns (admitted: bool)
      requires Valid() && Has(t, Arriving)
      modifies this
      ensures Valid() && admitted == old(accepting) && accepting == old(accepting)
      ensures admitted ==> Has(t, Working) && !idle && Running(st) == old(Running(st)) + {t}
      ensures !admitted ==> t !in st.threads && Running(st) == old(Running(st)) && active == old(active)
    {
      ghost var s1 := st.(lock := Some(Callback(t)), threads := st.threads[t := Entering]);
      assert CallbackStep(st, t, s1);
      RunningMoves(st, t, Entering, s1);
      Move(s1);
      if !accepting {
        ghost var s2 := st.(lock := None, threads := st.threads - {t});
        assert CallbackStep(st, t, s2);
        Move(s2);
        return false;
      }
      active := active + 1;
      ghost var s2 := st.(active := active, threads := st.threads[t := Counted]);
      assert CallbackStep(st, t, s2);
      RunningMoves(st, t, Counted, s2);
      Move(s2);
      idle := false;
      ghost var s3 := st.(idle := false, lock := None, threads := st.threads[t := Working]);
      assert CallbackStep(st, t, s3);
      RunningMoves(st, t, Working, s3);
      Move(s3);
      return true;
    }

    // The finally block of callback.
    method Leave(ghost t: nat)
      requires Valid() && Has(t, Working)
      modifies this
      ensures Valid() && accepting == old(accepting)
      ensures t !in st.threads && Running(st) == old(Running(st)) - {t}
    {
      ghost var s1 := st.(lock := Some(Callback(t)), threads := st.threads[t := Finishing]);
      assert CallbackStep(st, t, s1);
      RunningMoves(st, t, Finishing, s1);
      Move(s1);
      active := active - 1;
      ghost var s2 := st.(active := active, threads := st.threads[t := Discounted]);
      assert CallbackStep(st, t, s2);
      RunningMoves(st, t, Discounted, s2);
      Move(s2);
      if active == 0 { idle := true; }
      ghost var s3 := st.(idle := idle, lock := None, threads := st.threads - {t});
      assert CallbackStep(st, t, s3);
      Move(s3);
    }

    // The locked part of stop_accepting_and_drain.
    method StopAccepting() returns (alreadyIdle: bool)
      requires Valid()
      modifies this
      ensures Valid() && !accepting && alreadyIdle == (active == 0) && active == old(active)
      ensures alreadyIdle <==> Running(st) == {}
    {
      ghost var s1 := st.(lock := Some(Shutdown), stop := Stopping);
      Move(s1);
      accepting := false;
      alreadyIdle := active == 0;
      ghost var s2 := st.(accepting := false, lock := None, stop := Waiting(alreadyIdle));
      Move(s2);
      ReachedInv(st);
    }
  }

  lemma ReachedInv(s: State)
    requires Reaches(Step, INITIAL, s)
    ensures Inv(s)
  {
    var run :| IsPath(Step, run) && run[0] == INITIAL && run[|run| - 1] == s;
    RunKeeps(run, |run| - 1);
  }
}
