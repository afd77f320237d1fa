// The guarded rollout of a primary-key reindex: timers are stopped, readiness is asked for
// twice, the reindex runs, and whatever happened the stopped timers are started again.
// Everything outside the script answers as it likes, one answer for each command.

module ReindexRollout {
  import opened Common
  import Blockers = BlockerSampling

  datatype Unit =
    | MaintenanceTimer | DiskHealthTimer | V2Timer | V4Timer
    | Recorder | FrozenPredictor | PaperExecution

  const QUIESCED_TIMERS := [MaintenanceTimer, V2Timer, V4Timer]
  const REQUIRED_TIMERS := [MaintenanceTimer, DiskHealthTimer, V2Timer, V4Timer]
  const CORE_UNITS := [Recorder, FrozenPredictor, PaperExecution]

  // The steps that only return or raise.
  datatype Step =
    | Root | ExecuteFlag | DeployedHead | ZeroMoney | PromotionFalse | RecorderBinding
    | DiskHealthIdle | MaintenanceIdle | V2Idle | V4Idle | CoreSnapshot | CoreUnchanged
    | MakeEvidence | SaveRollout | SaveReadiness | IndexHealth | SaveHealth | CommitLag | SaveLag

  // The signals of a readiness report; None stands for a missing key.
  datatype Signals = Signals(
    ready: Option<bool>, noLongTransactions: Option<bool>, healthy: Option<bool>,
    noInvalid: Option<bool>, noPrepared: Option<bool>, headroom: Option<bool>)

  datatype Question = Active | Enabled

  // One step of the script that reaches outside it. Check stands for every step whose only
  // outcomes are to return or to raise; wanted is the answer the step expects.
  datatype Command =
    | Stop(unit: Unit)
    | Start(unit: Unit)
    | Ask(question: Question, unit: Unit, wanted: bool)
    | Check(step: Step)
    | Readiness
    | PostReadiness
    | Reindex
    | Window
    | SaveWindow
    | Retry
    | SaveRetry
    | Capture

  // What the outside says to one command: yes is a zero return code or a positive answer.
  datatype Answer = Answer(raises: bool, yes: bool, signals: Signals, window: Blockers.Sampling)

  // A command with the answer it got.
  datatype Entry = Entry(command: Command, answer: Answer)

  // The answer to each command of a run, by its number.
  type World = nat -> Answer

  datatype Ending = Returned | Raised

  predicate Passes(s: Signals) {
    s.ready == Some(true)
  }

  predicate OnlyLongTransactionsBlock(s: Signals) {
    && s.ready == Some(false) && s.noLongTransactions == Some(false)
    && s.healthy == Some(true) && s.noInvalid == Some(true)
    && s.noPrepared == Some(true) && s.headroom == Some(true)
  }

  predicate Intact(s: Signals) {
    s.healthy == Some(true) && s.noInvalid == Some(true)
  }

  // The answers that keep the rollout from succeeding. Evidence is captured only after
  // readiness was refused, so capturing it is a failure whatever it answers.
  predicate Bad(e: Entry) {
    || e.answer.raises
    || match e.command {
         case Start(_) => !e.answer.yes
         case Ask(_, _, wanted) => e.answer.yes != wanted
         case PostReadiness => !Intact(e.answer.signals)
         case Capture => true
         case _ => false
       }
  }

  // ----- The plan

  // Commands only sent when a first readiness report was held up by long transactions.
  predicate Extra(c: Command) {
    c.Window? || c.SaveWindow? || c.Retry? || c.SaveRetry? || c.Capture?
  }

  // Asking and checking: what neither belongs to the retry nor touches a timer or the index.
  predicate Plain(c: Command) {
    c.Ask? || c.Check? || c.PostReadiness?
  }

  function ActivePlan(units: seq<Unit>): seq<Command> {
    if units == [] then [] else [Ask(Active, units[0], true)] + ActivePlan(units[1..])
  }

  function RequirePlan(timers: seq<Unit>): seq<Command> {
    if timers == [] then []
    else [Ask(Enabled, timers[0], true), Ask(Active, timers[0], true)] + RequirePlan(timers[1..])
  }

  // What is sent for the first n timers.
  function QuiescePlan(timers: seq<Unit>, n: nat): seq<Command>
    requires n <= |timers|
  {
    if n == 0 then [] else QuiescePlan(timers, n - 1) + QuiesceSteps(timers[n - 1])
  }

  function QuiesceSteps(timer: Unit): seq<Command> {
    [Stop(timer), Ask(Active, timer, false), Ask(Enabled, timer, true)]
  }

  function RestorePlan(timers: seq<Unit>, n: nat): seq<Command>
    requires n <= |timers|
  {
    if n == 0 then []
    else RestorePlan(timers, n - 1) + RestoreSteps(timers[n - 1])
  }

  function RestoreSteps(timer: Unit): seq<Command> {
    [Start(timer), Ask(Active, timer, true)]
  }

  const GUARDS := [Check(ZeroMoney), Check(PromotionFalse)]
  const CORE_UNCHANGED := [Check(CoreUnchanged)]
  const HEALTH_AND_LAG := [Check(IndexHealth), Check(SaveHealth), Check(CommitLag), Check(SaveLag)]

  function OpeningPlan(): seq<Command> {
    [Check(Root), Check(ExecuteFlag), Check(DeployedHead)] + GUARDS + [Check(RecorderBinding)]
    + ActivePlan(CORE_UNITS) + RequirePlan(REQUIRED_TIMERS)
    + [Check(DiskHealthIdle), Check(CoreSnapshot), Check(MakeEvidence), Check(SaveRollout)]
  }

  function SettlePlan(): seq<Command> {
    [Check(MaintenanceIdle), Check(V2Idle), Check(V4Idle), Check(DiskHealthIdle)]
    + GUARDS + CORE_UNCHANGED
  }

  const READY_PLAN := [Readiness, Check(SaveReadiness)]

  function PlanBeforeReindex(): seq<Command> {
    OpeningPlan() + QuiescePlan(QUIESCED_TIMERS, |QUIESCED_TIMERS|) + SettlePlan()
    + READY_PLAN + (HEALTH_AND_LAG + CORE_UNCHANGED) + READY_PLAN
  }

  // To the end of the try block.
  function CarryPlan(): seq<Command> {
    PlanBeforeReindex() + [Reindex] + PlanAfterReindex()
  }

  function PlanAfterReindex(): seq<Command> {
    CORE_UNCHANGED + HEALTH_AND_LAG + [PostReadiness, Check(SaveReadiness)]
    + GUARDS + CORE_UNCHANGED + [Check(CoreSnapshot)]
  }

  function PlanOfTry(): seq<Command> {
    CarryPlan() + RestorePlan(Reversed(QUIESCED_TIMERS), |QUIESCED_TIMERS|) + [Check(SaveRollout)]
  }

  function Reversed(s: seq<Unit>): (r: seq<Unit>)
    ensures |r| == |s|
  {
    if s == [] then [] else [s[|s| - 1]] + Reversed(s[..|s| - 1])
  }

  // The readiness report held up by long transactions is good enough after all: the window's
  // last sample is empty and the second report passes. The window's command is number n.
  ghost predicate Recovers(world: World, n: nat) {
    && NoneRaises(world, n, 4)
    && world(n).window[|world(n).window| - 1] == [] && Passes(world(n + 2).signals)
  }

  function Members(s: seq<Unit>): set<Unit> {
    set t | t in s
  }

  lemma {:induction false} SameTimers(stopped: seq<Unit>)
    requires stopped <= QUIESCED_TIMERS
    ensures Members(stopped) == Members(QUIESCED_TIMERS) <==> stopped == QUIESCED_TIMERS
  {
    assert QUIESCED_TIMERS[2] == V4Timer;
    if |stopped| == 3 {
      assert stopped == QUIESCED_TIMERS[..3] == QUIESCED_TIMERS;
    } else {
      assert forall i :: 0 <= i < |stopped| ==> stopped[i] == QUIESCED_TIMERS[i];
      assert V4Timer in Members(QUIESCED_TIMERS) && V4Timer !in Members(stopped);
    }
  }

  // ----- What a log shows

  // The commands sent that belong to the plan, the timers whose stop returned, the timers
  // a start was attempted for, the signals of the last readiness report, and whether
  // everything has gone well so far.
  datatype State = State(
    sent: seq<Command>, stopped: seq<Unit>, started: seq<Unit>, last: Option<Signals>, good: bool,
    smooth: bool)

  // The state now, the state each reindex was sent in, and whether nothing beyond the plan
  // was sent while every answer had let it go on.
  datatype History = History(now: State, reindexedIn: seq<State>, calm: bool)

  const NOTHING_SENT := History(State([], [], [], None, true, true), [], true)

  // The answer lets the rollout go on as planned.
  predicate Fine(e: Entry) {
    !Bad(e) && (e.command.Readiness? ==> Passes(e.answer.signals))
  }

  function Then(h: History, e: Entry): History {
    var c := e.command;
    History(
      State(
        if Extra(c) then h.now.sent else h.now.sent + [c],
        if c.Stop? && !e.answer.raises then h.now.stopped + [c.unit] else h.now.stopped,
        if c.Start? then h.now.started + [c.unit] else h.now.started,
        if c.Readiness? || c.Retry? then Some(e.answer.signals) else h.now.last,
        h.now.good && !Bad(e),
        h.now.smooth && (Extra(c) || Fine(e))),
      if c.Reindex? then h.reindexedIn + [h.now] else h.reindexedIn,
      h.calm && !(Extra(c) && h.now.smooth))
  }

  // Neither a timer's state nor the index was touched, and no readiness was asked for.
  ghost predicate Unchanging(h: History, h': History) {
    Keeping(h, h') && h'.now.stopped == h.now.stopped && h'.now.last == h.now.last
  }

  // No command of the plan was sent.
  ghost predicate Retrying(h: History, h': History) {
    Keeping(h, h') && h'.now.stopped == h.now.stopped && h'.now.sent == h.now.sent
  }

  // Only starting and asking: no timer was stopped and no reindex sent.
  ghost predicate Restoring(h: History, h': History) {
    h'.now.stopped == h.now.stopped && h'.reindexedIn == h.reindexedIn && h'.calm == h.calm
  }

  // No start and no reindex.
  ghost predicate Keeping(h: History, h': History) {
    h'.now.started == h.now.started && h'.reindexedIn == h.reindexedIn && h'.calm == h.calm
  }

  function Read(log: seq<Entry>): History {
    if log == [] then NOTHING_SENT
    else Then(Read(log[..|log| - 1]), log[|log| - 1])
  }

  // The latest readiness report passed, nothing had failed, and the whole plan up to here
  // had been carried out: in particular every timer had been stopped, seen inactive and
  // seen still enabled.
  ghost predicate ReadyToReindex(s: State) {
    && s.good && s.sent == PlanBeforeReindex() && s.stopped == QUIESCED_TIMERS
    && s.last.Some? && Passes(s.last.value)
  }

  lemma {:induction false} GoodMeans(log: seq<Entry>)
    ensures Read(log).now.good <==> forall e :: e in log ==> !Bad(e)
  {
    if log != [] {
      GoodMeans(log[..|log| - 1]);
      assert log == log[..|log| - 1] + [log[|log| - 1]];
    }
  }

  // Every reindex in a log is in the history, with what the log before it showed.
  lemma {:induction false} ReindexIsRemembered(log: seq<Entry>, i: nat)
    requires i < |log| && log[i].command.Reindex?
    ensures Read(log[..i]).now in Read(log).reindexedIn
  {
    var front, e := log[..|log| - 1], log[|log| - 1];
    assert Read(log) == Then(Read(front), e);
    assert log[..i] == front[..i];
    if i < |front| {
      ReindexIsRemembered(front, i);
    } else {
      assert front[..i] == front;
      assert Read(log).reindexedIn == Read(front).reindexedIn + [Read(front).now];
    }
  }

  // Whatever log the rollout leaves, nothing in it before a reindex had failed, and what
  // came before had made the database ready.
  lemma {:induction false} NothingFailedBeforeReindex(log: seq<Entry>, i: nat)
    requires i < |log| && log[i].command.Reindex?
    requires forall s :: s in Read(log).reindexedIn ==> ReadyToReindex(s)
    ensures ReadyToReindex(Read(log[..i]).now) && forall j :: 0 <= j < i ==> !Bad(log[j])
  {
    ReindexIsRemembered(log, i);
    GoodMeans(log[..i]);
    forall j | 0 <= j < i ensures !Bad(log[j]) {
      assert log[..i][j] in log[..i];
    }
  }

  // From one list of commands sent to a later one: the beginning of a plan, or all of it.
  predicate Sent(before: seq<Command>, now: seq<Command>, plan: seq<Command>, all: bool) {
    before <= now <= before + plan && (all ==> now == before + plan)
  }

  lemma SentOn(before: seq<Command>, between: seq<Command>, p: seq<Command>, now: seq<Command>, q: seq<Command>,
               all: bool)
    requires Sent(before, between, p, true) && Sent(between, now, q, all)
    ensures Sent(before, now, p + q, all)
  {
    assert before + p + q == before + (p + q);
  }

  lemma SentBefore(before: seq<Command>, now: seq<Command>, p: seq<Command>, q: seq<Command>)
    requires Sent(before, now, p, false) && p <= q
    ensures Sent(before, now, q, false)
  {}

  // ----- Worlds in which all goes well

  // The outside answers this plan, sent from the start, as it wishes to be answered.
  ghost predicate Smooth(world: World, plan: seq<Command>) {
    forall k :: 0 <= k < |plan| ==> Fine(Entry(plan[k], world(k)))
  }

  // What was sent is the beginning of a plan, and the answers are the world's: then every
  // answer let the rollout go on, and nothing else was sent.
  lemma {:induction false} WorldTells(world: World, log: seq<Entry>, plan: seq<Command>)
    requires Smooth(world, plan) && Read(log).now.sent <= plan && Read(log).calm
    requires forall i :: 0 <= i < |log| ==> log[i].answer == world(i)
    ensures Read(log).now.smooth && Read(log).now.good && |Read(log).now.sent| == |log|
  {
    if log != [] {
      var front, e := log[..|log| - 1], log[|log| - 1];
      WorldTells(world, front, plan);
      if !Extra(e.command) {
        assert plan[|front|] == e.command && e == Entry(plan[|front|], world(|front|));
      }
    }
  }

  // A world that answers every command of a plan as it wishes, but for one that raises.
  function Obliging(plan: seq<Command>, trouble: nat): World {
    (n: nat) => Answer(n == trouble, n >= |plan| || !plan[n].Ask? || plan[n].wanted,
                       Signals(Some(true), Some(true), Some(true), Some(true), Some(true), Some(true)), [[]])
  }

  lemma {:induction false} ObligingIsSmooth(plan: seq<Command>, trouble: nat)
    requires trouble >= |plan| && NoCapture(plan)
    ensures Smooth(Obliging(plan, trouble), plan)
  {
    forall k | 0 <= k < |plan| ensures Fine(Entry(plan[k], Obliging(plan, trouble)(k))) { assert plan[k] in plan; }
  }

  // The number of the first start in a log.
  function FirstStart(log: seq<Entry>): nat {
    if log == [] || log[0].command.Start? then 0 else 1 + FirstStart(log[1..])
  }

  lemma {:induction false} FirstStartIs(log: seq<Entry>, at: nat)
    requires at < |log| && log[at].command.Start? && forall i :: 0 <= i < at ==> !log[i].command.Start?
    ensures FirstStart(log) == at
  {
    if at > 0 { FirstStartIs(log[1..], at - 1); }
  }

  lemma {:induction false} FirstStartStays(log: seq<Entry>, longer: seq<Entry>)
    requires log <= longer
    ensures FirstStart(log) <= |log|
    ensures FirstStart(log) < |log| ==> FirstStart(longer) == FirstStart(log)
  {
    if log != [] && !log[0].command.Start? { FirstStartStays(log[1..], longer[1..]); }
  }

  ghost predicate NoStart(log: seq<Entry>) {
    forall e :: e in log ==> !e.command.Start?
  }

  lemma {:induction false} NoStartYet(log: seq<Entry>)
    requires Read(log).now.started == []
    ensures NoStart(log)
  {
    if log != [] {
      NoStartYet(log[..|log| - 1]);
      assert log == log[..|log| - 1] + [log[|log| - 1]];
    }
  }

  // ----- Restoring

  ghost predicate NoneRaises(world: World, from: nat, count: nat) {
    forall i :: from <= i < from + count ==> !world(i).raises
  }

  // For how many of count timers the restoring loop attempts a start, when its first
  // command is number base of the run.
  function Attempts(world: World, base: nat, count: nat): (n: nat)
    ensures n <= count
    decreases count
  {
    if count == 0 then 0
    else if world(base).raises || world(base + 1).raises then 1
    else 1 + Attempts(world, base + 2, count - 1)
  }

  // The loop gets past the timers none of whose commands raises, and one timer further.
  lemma {:induction false} AttemptsStopAt(world: World, base: nat, count: nat, i: nat)
    requires i <= count && NoneRaises(world, base, 2 * i)
    requires i < count ==> world(base + 2 * i).raises || world(base + 2 * i + 1).raises
    ensures Attempts(world, base, count) == if i < count then i + 1 else i
    decreases i
  {
    if i > 0 {
      assert !world(base).raises && !world(base + 1).raises;
      AttemptsStopAt(world, base + 2, count - 1, i - 1);
    }
  }

  // No command of the restoring loop raises, fails or finds its timer inactive.
  ghost predicate AllAnswerYes(world: World, base: nat, count: nat) {
    forall i :: base <= i < base + 2 * count ==> !world(i).raises && world(i).yes
  }

  // How the answers stand after i timers: an unfinished loop ended at the last of them.
  ghost predicate WentTo(world: World, base: nat, i: nat, finished: bool, well: bool) {
    if finished then NoneRaises(world, base, 2 * i) && (well <==> AllAnswerYes(world, base, i))
    else
      && i > 0 && !well && NoneRaises(world, base, 2 * i - 2)
      && (world(base + 2 * i - 2).raises || world(base + 2 * i - 1).raises)
  }

  lemma {:induction false} GoesOn(world: World, base: nat, i: nat, well: bool, finished: bool, fine: bool)
    requires WentTo(world, base, i, true, well)
    requires finished <==> !world(base + 2 * i).raises && !world(base + 2 * i + 1).raises
    requires fine <==> finished && world(base + 2 * i).yes && world(base + 2 * i + 1).yes
    ensures WentTo(world, base, i + 1, finished, well && fine)
  {
  }

  lemma {:induction false} WentAll(world: World, base: nat, i: nat, count: nat, finished: bool, well: bool)
    requires WentTo(world, base, i, finished, well) && i <= count && (finished ==> i == count)
    ensures i == Attempts(world, base, count)
    ensures finished <==> NoneRaises(world, base, 2 * count)
    ensures well <==> AllAnswerYes(world, base, count)
  {
    AttemptsStopAt(world, base, count, if finished then i else i - 1);
    if !finished {
      var k := if world(base + 2 * i - 2).raises then base + 2 * i - 2 else base + 2 * i - 1;
      assert world(k).raises;
    }
  }

  // Every timer is attempted exactly when no command before the last timer's start raises.
  lemma {:induction false} AllAttemptedIff(world: World, base: nat, count: nat)
    requires count > 0
    ensures Attempts(world, base, count) == count <==> NoneRaises(world, base, 2 * count - 2)
    decreases count
  {
    if count > 1 {
      AllAttemptedIff(world, base + 2, count - 1);
      if world(base).raises || world(base + 1).raises {
        assert !NoneRaises(world, base, 2 * count - 2);
      } else {
        assert NoneRaises(world, base, 2 * count - 2) <==> NoneRaises(world, base + 2, 2 * count - 4);
      }
    }
  }

  // ----- The script

  // The log goes on from an older one, and next with a start of the first of the timers.
  ghost predicate FirstRestored(older: seq<Entry>, log: seq<Entry>, timers: seq<Unit>) {
    older <= log && (timers != [] ==> |older| < |log| && log[|older|].command == Start(timers[0]))
  }

  // From one point of the restoring loop to a later one: these timers were attempted.
  ghost predicate RestoredTo(h: History, h': History, log: seq<Entry>, log': seq<Entry>, timers: seq<Unit>,
                             plan: seq<Command>, finished: bool, well: bool) {
    && Restoring(h, h') && h'.now.started == h.now.started + timers && (h'.now.good <==> h.now.good && well)
    && Sent(h.now.sent, h'.now.sent, plan, finished) && FirstRestored(log, log', timers)
  }

  lemma {:induction false} RestoredOn(h: History, h1: History, h2: History, l: seq<Entry>, l1: seq<Entry>,
                                      l2: seq<Entry>,
                                      timers: seq<Unit>, i: nat, finished: bool, well: bool, fine: bool)
    requires i < |timers| && RestoredTo(h, h1, l, l1, timers[..i], RestorePlan(timers, i), true, well)
    requires i == 0 ==> l1 == l
    requires RestoredTo(h1, h2, l1, l2, [timers[i]], RestoreSteps(timers[i]), finished, fine)
    ensures RestoredTo(h, h2, l, l2, timers[..i + 1], RestorePlan(timers, i + 1), finished, well && fine)
  {
    assert timers[..i + 1] == timers[..i] + [timers[i]];
    SentOn(h.now.sent, h1.now.sent, RestorePlan(timers, i), h2.now.sent, RestoreSteps(timers[i]), finished);
  }

  // The timers that were stopped are started again in reverse order as far as the restoring
  // loop gets, which starts with the first start in the log; all of them are attempted
  // exactly if none of its commands before the last start raises.
  ghost predicate AsFarAsItGets(world: World, log: seq<Entry>, stopped: seq<Unit>, started: seq<Unit>,
                                allRestored: bool) {
    var at, n := FirstStart(log), |stopped|;
    && (n > 0 ==> at < |log| && log[at].command == Start(stopped[n - 1]))
    && started == Reversed(stopped)[..Attempts(world, at, n)]
    && (started == Reversed(stopped) <==> n == 0 || NoneRaises(world, at, 2 * n - 2))
    && (allRestored <==> stopped == QUIESCED_TIMERS && AllAnswerYes(world, at, n))
  }

  lemma {:induction false} RestoringStarts(before: seq<Entry>, log: seq<Entry>, stopped: seq<Unit>)
    requires stopped != [] && FirstRestored(before, log, Reversed(stopped)) && NoStart(before)
    ensures FirstStart(log) == |before| && log[|before|].command == Start(stopped[|stopped| - 1])
  {
    forall i | 0 <= i < |before| ensures !log[i].command.Start? { assert log[i] == before[i] && before[i] in before; }
    FirstStartIs(log, |before|);
  }

  lemma {:induction false} NoneStopped(world: World, log: seq<Entry>)
    ensures AsFarAsItGets(world, log, [], [], false)
  {}

  lemma {:induction false} SomeStopped(world: World, at: nat, log: seq<Entry>, stopped: seq<Unit>,
                                       started: seq<Unit>, allRestored: bool)
    requires stopped != [] && at == FirstStart(log) && at < |log| && log[at].command == Start(stopped[|stopped| - 1])
    requires started == Reversed(stopped)[..Attempts(world, at, |stopped|)]
    requires allRestored <==> stopped == QUIESCED_TIMERS && AllAnswerYes(world, at, |stopped|)
    ensures AsFarAsItGets(world, log, stopped, started, allRestored)
  {
    AttemptedAllIff(world, at, stopped, started);
  }

  lemma {:induction false} GotThere(world: World, before: seq<Entry>, log: seq<Entry>, stopped: seq<Unit>,
                                    started: seq<Unit>, allRestored: bool)
    requires FirstRestored(before, log, Reversed(stopped)) && NoStart(before)
    requires started == Reversed(stopped)[..Attempts(world, |before|, |stopped|)]
    requires allRestored <==> stopped == QUIESCED_TIMERS && AllAnswerYes(world, |before|, |stopped|)
    ensures AsFarAsItGets(world, log, stopped, started, allRestored)
    ensures stopped != [] ==> FirstStart(log) == |before|
  {
    if stopped == [] {
      NoneStopped(world, log);
    } else {
      RestoringStarts(before, log, stopped);
      SomeStopped(world, |before|, log, stopped, started, allRestored);
    }
  }

  lemma {:induction false} AttemptedAllIff(world: World, at: nat, stopped: seq<Unit>, started: seq<Unit>)
    requires stopped != [] && started == Reversed(stopped)[..Attempts(world, at, |stopped|)]
    ensures started == Reversed(stopped) <==> NoneRaises(world, at, 2 * |stopped| - 2)
  {
    AllAttemptedIff(world, at, |stopped|);
    PrefixIsAll(Reversed(stopped), Attempts(world, at, |stopped|));
  }

  // What was carried out of the try block, as the log up to the restoring shows it.
  ghost predicate Tried(tried: seq<Entry>, log: seq<Entry>, stopped: seq<Unit>) {
    && tried <= log && Read(tried).calm && Read(tried).now.sent <= CarryPlan()
    && (Read(tried).now.smooth ==> stopped == QUIESCED_TIMERS && Read(tried).now.sent == CarryPlan())
    && (stopped != [] ==> FirstStart(log) == |tried|)
  }

  // Where all goes well the try block is carried to its end: all timers are stopped, and the
  // restoring begins right after the plan.
  lemma {:induction false} SmoothlyTried(world: World, tried: seq<Entry>, log: seq<Entry>, stopped: seq<Unit>)
    requires Tried(tried, log, stopped) && Smooth(world, CarryPlan())
    requires forall i :: 0 <= i < |log| ==> log[i].answer == world(i)
    ensures stopped == QUIESCED_TIMERS && FirstStart(log) == |CarryPlan()|
  {
    WorldTells(world, tried, CarryPlan());
  }

  // And then the whole rollout goes well.
  lemma {:induction false} SmoothlyReturned(world: World, tried: seq<Entry>, log: seq<Entry>, stopped: seq<Unit>)
    requires Tried(tried, log, stopped) && Smooth(world, PlanOfTry() + RequirePlan(REQUIRED_TIMERS)) && Read(log).calm
    requires Read(tried).now.smooth ==> Read(log).now.sent <= PlanOfTry() + RequirePlan(REQUIRED_TIMERS)
    requires forall i :: 0 <= i < |log| ==> log[i].answer == world(i)
    ensures Read(log).now.good
  {
    var plan := PlanOfTry() + RequirePlan(REQUIRED_TIMERS);
    SmoothPrefix(world, CarryPlan(), plan);
    WorldTells(world, tried, CarryPlan());
    WorldTells(world, log, plan);
  }

  lemma {:induction false} SmoothPrefix(world: World, plan: seq<Command>, longer: seq<Command>)
    requires plan <= longer && Smooth(world, longer)
    ensures Smooth(world, plan)
  {
    forall k | 0 <= k < |plan| ensures Fine(Entry(plan[k], world(k))) { assert plan[k] == longer[k]; }
  }

  lemma {:induction false} OpeningIsPlain()
    ensures forall c :: c in OpeningPlan() ==> Plain(c)
  {}

  lemma {:induction false} RequireIsPlain(timers: seq<Unit>)
    ensures forall c :: c in RequirePlan(timers) ==> Plain(c)
  {
    if timers != [] { RequireIsPlain(timers[1..]); }
  }

  predicate NoCapture(plan: seq<Command>) {
    forall c :: c in plan ==> !c.Capture?
  }

  lemma {:induction false} QuiesceWithoutCapture(timers: seq<Unit>, n: nat)
    requires n <= |timers|
    ensures NoCapture(QuiescePlan(timers, n))
  {
    if n > 0 { QuiesceWithoutCapture(timers, n - 1); }
  }

  lemma NoCaptureParts(p: seq<Command>, q: seq<Command>)
    requires NoCapture(p) && NoCapture(q)
    ensures NoCapture(p + q)
  {}

  lemma {:induction false} NoCaptureInPlan()
    ensures NoCapture(CarryPlan())
  {
    var p := OpeningPlan();
    var q := QuiescePlan(QUIESCED_TIMERS, |QUIESCED_TIMERS|);
    OpeningIsPlain();
    QuiesceWithoutCapture(QUIESCED_TIMERS, |QUIESCED_TIMERS|);
    assert forall c :: c in SettlePlan() ==> Plain(c);
    assert forall c :: c in PlanAfterReindex() ==> Plain(c);
    assert forall c :: c in HEALTH_AND_LAG + CORE_UNCHANGED ==> Plain(c);
    NoCaptureParts(p, q);
    NoCaptureParts(p + q, SettlePlan());
    NoCaptureParts(p + q + SettlePlan(), READY_PLAN);
    NoCaptureParts(p + q + SettlePlan() + READY_PLAN, HEALTH_AND_LAG + CORE_UNCHANGED);
    NoCaptureParts(p + q + SettlePlan() + READY_PLAN + (HEALTH_AND_LAG + CORE_UNCHANGED), READY_PLAN);
    NoCaptureParts(PlanBeforeReindex(), [Reindex]);
    NoCaptureParts(PlanBeforeReindex() + [Reindex], PlanAfterReindex());
  }

  lemma SentAfter(before: seq<Command>, now: seq<Command>, p: seq<Command>, q: seq<Command>, all: bool)
    requires Sent(before, now, p + q, all)
    ensures now <= before + p + q && (all ==> now == before + p + q)
  {
    assert before + p + q == before + (p + q);
  }

  lemma {:induction false} PlanIsTried(before: seq<Command>, now: seq<Command>, stopped: seq<Unit>,
                                       done: bool, saved: bool)
    requires Sent(before, now, RestorePlan(Reversed(stopped), |stopped|) + [Check(SaveRollout)], saved)
    requires done ==> before == CarryPlan() && stopped == QUIESCED_TIMERS
    ensures done ==> now <= PlanOfTry() && (saved ==> now == PlanOfTry())
  {
    SentAfter(before, now, RestorePlan(Reversed(stopped), |stopped|), [Check(SaveRollout)], saved);
  }

  lemma {:induction false} TriedStays(tried: seq<Entry>, log: seq<Entry>, longer: seq<Entry>, stopped: seq<Unit>)
    requires Tried(tried, log, stopped) && log <= longer && (stopped != [] ==> FirstStart(longer) == FirstStart(log))
    ensures Tried(tried, longer, stopped)
  {}

  // The checks before the try block are the beginning of the plan.
  lemma {:induction false} NothingTried(log: seq<Entry>)
    requires Read(log).calm && Read(log).now.sent <= OpeningPlan() && !Read(log).now.smooth
    ensures Tried(log, log, [])
  {
    var p := OpeningPlan();
    assert p <= p + QuiescePlan(QUIESCED_TIMERS, |QUIESCED_TIMERS|) <= PlanBeforeReindex() <= CarryPlan();
  }

  lemma {:induction false} PrefixIsAll(s: seq<Unit>, n: nat)
    requires n <= |s|
    ensures s[..n] == s <==> n == |s|
  {}

  lemma {:induction false} StillThere(world: World, log: seq<Entry>, longer: seq<Entry>, stopped: seq<Unit>,
                                      started: seq<Unit>, allRestored: bool)
    requires AsFarAsItGets(world, log, stopped, started, allRestored) && log <= longer
    ensures AsFarAsItGets(world, longer, stopped, started, allRestored)
    ensures stopped != [] ==> FirstStart(longer) == FirstStart(log)
  {
    FirstStartStays(log, longer);
  }

  lemma {:induction false} QuiescePrefix(timers: seq<Unit>, i: nat, j: nat)
    requires i <= j <= |timers|
    ensures QuiescePlan(timers, i) <= QuiescePlan(timers, j)
    decreases j
  {
    if i < j { QuiescePrefix(timers, i, j - 1); }
  }

  lemma {:induction false} RestorePrefix(timers: seq<Unit>, i: nat, j: nat)
    requires i <= j <= |timers|
    ensures RestorePlan(timers, i) <= RestorePlan(timers, j)
    decreases j
  {
    if i < j { RestorePrefix(timers, i, j - 1); }
  }

  class Rollout {
    const world: World
    var log: seq<Entry>
    var stopped: seq<Unit>
    var succeeded: bool
    var allRestored: bool
    ghost var history: History

    // Every answer in the log is the outside's answer to that command.
    ghost predicate Valid()
      reads this
    {
      && history == Read(log)
      && forall i :: 0 <= i < |log| ==> log[i].answer == world(i)
    }

    constructor (world: World)
      ensures this.world == world && log == [] && stopped == [] && !succeeded && !allRestored
      ensures Valid()
    {
      this.world := world;
      log, stopped, succeeded, allRestored := [], [], false, false;
      history := NOTHING_SENT;
    }

    method Send(c: Command) returns (a: Answer)
      requires Valid()
      modifies `log, `history
      ensures Valid() && history == Then(old(history), Entry(c, a))
      ensures log == old(log) + [Entry(c, a)] && a == world(|old(log)|)
    {
      a := world(|log|);
      history := Then(history, Entry(c, a));
      log := log + [Entry(c, a)];
      assert log[..|log| - 1] == old(log);
    }

    // Steps that are carried out one after the other until one of them fails.
    method Perform(plan: seq<Command>) returns (ok: bool)
      requires Valid() && forall c :: c in plan ==> Plain(c)
      modifies `log, `history
      ensures Valid() && Unchanging(old(history), history)
      ensures history.now.good == (old(history).now.good && ok)
      ensures old(history).now.sent <= history.now.sent <= old(history).now.sent + plan
      ensures ok ==> history.now.sent == old(history).now.sent + plan
      ensures old(log) <= log && history.now.smooth == (old(history).now.smooth && ok)
    {
      var i := 0;
      ok := true;
      while i < |plan| && ok
        invariant Valid() && i <= |plan| && Performed(old(history), old(log), plan[..i], ok)
        decreases |plan| - i, ok
      {
        ok := PerformNext(old(history), old(log), plan, i);
        i := i + 1;
      }
    }

    // These steps were carried out since then, the last one perhaps in vain.
    ghost predicate Performed(h: History, l: seq<Entry>, done: seq<Command>, ok: bool)
      reads this
    {
      && l <= log && Unchanging(h, history) && history.now.sent == h.now.sent + done
      && history.now.good == (h.now.good && ok) && history.now.smooth == (h.now.smooth && ok)
    }

    method PerformNext(ghost h: History, ghost l: seq<Entry>, plan: seq<Command>, i: nat) returns (ok: bool)
      requires Valid() && i < |plan| && Plain(plan[i]) && Performed(h, l, plan[..i], true)
      modifies `log, `history
      ensures Valid() && Performed(h, l, plan[..i + 1], ok)
    {
      var a := Send(plan[i]);
      ok := !Bad(Entry(plan[i], a));
      assert plan[..i + 1] == plan[..i] + [plan[i]];
    }

    method SendStop(timer: Unit) returns (a: Answer)
      requires Valid() && history.now.good
      modifies `log, `history
      ensures Valid() && Keeping(old(history), history) && history.now.good == !a.raises
      ensures history.now.stopped == old(history).now.stopped + if a.raises then [] else [timer]
      ensures history.now.sent == old(history).now.sent + [Stop(timer)]
      ensures a.raises ==> !history.now.smooth
    {
      a := Send(Stop(timer));
    }

    // Stops a timer and sees that it is inactive and still enabled. A stop that raises is
    // not remembered, so that timer is not started again.
    method QuiesceOne(timer: Unit) returns (ok: bool)
      requires Valid() && history.now.good && stopped == history.now.stopped
      modifies `log, `stopped, `history
      ensures Valid() && Keeping(old(history), history) && history.now.good == ok
      ensures stopped == history.now.stopped
      ensures (stopped == old(stopped) && !ok) || stopped == old(stopped) + [timer]
      ensures ok ==> history.now.sent == old(history).now.sent + QuiesceSteps(timer)
      ensures history.now.sent <= old(history).now.sent + QuiesceSteps(timer) && (ok || !history.now.smooth)
    {
      var a := SendStop(timer);
      if a.raises { return false; }
      stopped := stopped + [timer];
      ok := Perform([Ask(Active, timer, false), Ask(Enabled, timer, true)]);
    }

    method QuiesceTimers(timers: seq<Unit>) returns (ok: bool)
      requires Valid() && history.now.good && stopped == history.now.stopped == []
      modifies `log, `stopped, `history
      ensures Valid() && Keeping(old(history), history) && history.now.good == ok
      ensures stopped == history.now.stopped <= timers && (ok ==> stopped == timers)
      ensures ok ==> history.now.sent == old(history).now.sent + QuiescePlan(timers, |timers|)
      ensures history.now.sent <= old(history).now.sent + QuiescePlan(timers, |timers|) && (ok || !history.now.smooth)
    {
      var i := 0;
      ok := true;
      while i < |timers| && ok
        invariant Valid() && i <= |timers| && history.now.good == ok
        invariant Keeping(old(history), history)
        invariant stopped == history.now.stopped && |stopped| <= i && stopped == timers[..|stopped|]
        invariant ok ==> |stopped| == i
        invariant history.now.sent <= old(history).now.sent + QuiescePlan(timers, i) && (ok || !history.now.smooth)
        invariant ok ==> history.now.sent == old(history).now.sent + QuiescePlan(timers, i)
        decreases |timers| - i, ok
      {
        ok := QuiesceOne(timers[i]);
        i := i + 1;
      }
      QuiescePrefix(timers, i, |timers|);
    }

    method SendExtra(c: Command) returns (a: Answer)
      requires Valid() && Extra(c) && !c.Capture? && !history.now.smooth
      modifies `log, `history
      ensures Valid() && Retrying(old(history), history) && !history.now.smooth
      ensures history.now.good == (old(history).now.good && !a.raises)
      ensures history.now.last == if c.Retry? then Some(a.signals) else old(history).now.last
      ensures |log| == |old(log)| + 1 && a == world(|old(log)|)
    {
      a := Send(c);
    }

    method TakeWindow() returns (clean: bool, ok: bool)
      requires Valid() && history.now.good && !history.now.smooth
      modifies `log, `history
      ensures Valid() && Retrying(old(history), history) && history.now.good == ok && !history.now.smooth
      ensures var n := |old(log)|;
              && (ok <==> NoneRaises(world, n, 2))
              && (ok ==> |log| == n + 2 && (clean <==> world(n).window[|world(n).window| - 1] == []))
    {
      clean := false;
      var a := SendExtra(Window);
      if a.raises { return false, false; }
      var report := Blockers.BuildReport(a.window);
      Blockers.CleanIffLastSampleEmpty(report, a.window);
      clean := Blockers.EndsClean(report);
      var b := SendExtra(SaveWindow);
      ok := !b.raises;
    }

    method RetryReport() returns (signals: Signals, ok: bool)
      requires Valid() && history.now.good && !history.now.smooth
      modifies `log, `history
      ensures Valid() && Retrying(old(history), history) && history.now.good == ok && !history.now.smooth
      ensures ok <==> NoneRaises(world, |old(log)|, 2)
      ensures ok ==> signals == world(|old(log)|).signals && history.now.last == Some(signals)
    {
      var a := SendExtra(Retry);
      signals := a.signals;
      if a.raises { return signals, false; }
      var b := SendExtra(SaveRetry);
      ok := !b.raises;
    }

    // The bounded window and, if it ended clean, the retry: the retry's report.
    method RetryAfterWindow() returns (retried: Option<Signals>, ok: bool)
      requires Valid() && history.now.good && !history.now.smooth
      modifies `log, `history
      ensures Valid() && Retrying(old(history), history) && history.now.good == ok && !history.now.smooth
      ensures retried.Some? ==> ok && history.now.last == retried
      ensures Recovers(world, |old(log)|) <==> retried.Some? && Passes(retried.value)
    {
      ghost var n := |log|;
      assert NoneRaises(world, n, 4) <==> NoneRaises(world, n, 2) && NoneRaises(world, n + 2, 2);
      var clean;
      retried := None;
      clean, ok := TakeWindow();
      if ok && clean {
        var signals;
        signals, ok := RetryReport();
        if ok { retried := Some(signals); }
      }
    }

    // Returns the report the caller goes on with, or captures evidence and raises.
    method RequirePreflight(signals: Signals) returns (ok: bool)
      requires Valid() && history.now.good && history.now.last == Some(signals)
      requires history.now.smooth ==> Passes(signals)
      modifies `log, `history
      ensures Valid() && Retrying(old(history), history) && history.now.good == ok
      ensures ok ==> history.now.last.Some? && Passes(history.now.last.value)
      ensures ok <==> Passes(signals) || (OnlyLongTransactionsBlock(signals) && Recovers(world, |old(log)|))
      ensures ok || !history.now.smooth
    {
      if Passes(signals) { return true; }
      if OnlyLongTransactionsBlock(signals) {
        var retried;
        retried, ok := RetryAfterWindow();
        if !ok { return; }
        if retried.Some? && Passes(retried.value) { return; }
      }
      CaptureEvidence();
      ok := false;
    }

    method CaptureEvidence()
      requires Valid() && !history.now.smooth
      modifies `log, `history
      ensures Valid() && Retrying(old(history), history) && !history.now.good && !history.now.smooth
      ensures history.now.last == old(history).now.last
    {
      var _ := Send(Capture);
    }

    method CheckReadiness() returns (ok: bool)
      requires Valid() && history.now.good
      modifies `log, `history
      ensures Valid() && Keeping(old(history), history) && history.now.good == ok
      ensures history.now.stopped == old(history).now.stopped
      ensures ok ==> history.now.sent == old(history).now.sent + READY_PLAN
      ensures history.now.sent <= old(history).now.sent + READY_PLAN && (ok || !history.now.smooth)
      ensures ok ==> history.now.last.Some? && Passes(history.now.last.value)
    {
      var report := Send(Readiness);
      if report.raises { return false; }
      var a := Send(Check(SaveReadiness));
      if a.raises { return false; }
      ok := RequirePreflight(report.signals);
    }

    // The try block up to the reindex.
    method Prepare() returns (ok: bool)
      requires Valid() && history.now.good && history.now.sent == OpeningPlan()
      requires stopped == history.now.stopped == []
      modifies `log, `stopped, `history
      ensures Valid() && Keeping(old(history), history) && history.now.good == ok
      ensures stopped == history.now.stopped <= QUIESCED_TIMERS
      ensures ok ==> ReadyToReindex(history.now)
      ensures history.now.sent <= PlanBeforeReindex() && (ok || !history.now.smooth)
    {
      ok := QuiesceTimers(QUIESCED_TIMERS);
      if !ok { return; }
      ok := Perform(SettlePlan());
      if !ok { return; }
      ok := CheckReadiness();
      if !ok { return; }
      ok := Perform(HEALTH_AND_LAG + CORE_UNCHANGED);
      if !ok { return; }
      ok := CheckReadiness();
    }

    method SendReindex() returns (ok: bool)
      requires Valid() && ReadyToReindex(history.now)
      modifies `log, `history
      ensures Valid() && history.now.good == ok && (ok || !history.now.smooth) && history.calm == old(history).calm
      ensures history.now.started == old(history).now.started && history.now.stopped == old(history).now.stopped
      ensures history.reindexedIn == old(history).reindexedIn + [old(history).now]
      ensures history.now.sent == PlanBeforeReindex() + [Reindex]
    {
      var a := Send(Reindex);
      ok := !a.raises;
    }

    // The try block.
    method Carry() returns (ok: bool)
      requires Valid() && history.now.good && history.now.sent == OpeningPlan()
      requires stopped == history.now.stopped == [] && history.reindexedIn == []
      modifies `log, `stopped, `history
      ensures Valid() && history.now.good == ok && history.now.started == old(history).now.started
      ensures stopped == history.now.stopped <= QUIESCED_TIMERS
      ensures |history.reindexedIn| <= 1 && forall s :: s in history.reindexedIn ==> ReadyToReindex(s)
      ensures ok ==> history.now.sent == CarryPlan()
      ensures history.now.sent <= CarryPlan() && (ok || !history.now.smooth) && history.calm == old(history).calm
      ensures ok ==> stopped == QUIESCED_TIMERS && |history.reindexedIn| == 1
    {
      ok := Prepare();
      if !ok { return; }
      ok := SendReindex();
      if !ok { return; }
      ok := Perform(PlanAfterReindex());
    }

    method SendRestoring(c: Command) returns (a: Answer)
      requires Valid() && (c.Start? || c.Ask?)
      modifies `log, `history
      ensures Valid() && Restoring(old(history), history)
      ensures history.now.started == if c.Start? then old(history).now.started + [c.unit] else old(history).now.started
      ensures history.now.sent == old(history).now.sent + [c]
      ensures history.now.good == (old(history).now.good && !Bad(Entry(c, a)))
      ensures log == old(log) + [Entry(c, a)] && a == world(|old(log)|)
    {
      a := Send(c);
    }

    method RestoreOne(timer: Unit) returns (finished: bool, well: bool)
      requires Valid()
      modifies `log, `history
      ensures Valid()
      ensures RestoredTo(old(history), history, old(log), log, [timer], RestoreSteps(timer), finished, well)
      ensures var n := |old(log)|;
              && (finished <==> !world(n).raises && !world(n + 1).raises) && (finished ==> |log| == n + 2)
              && (well <==> finished && world(n).yes && world(n + 1).yes)
    {
      var a := SendRestoring(Start(timer));
      if a.raises { return false, false; }
      var b := SendRestoring(Ask(Active, timer, true));
      finished := !b.raises;
      well := finished && a.yes && b.yes;
    }

    // The finally block's loop. Unless a command raises, every timer is started in turn.
    method RestoreTimers(timers: seq<Unit>) returns (finished: bool, well: bool)
      requires Valid()
      modifies `log, `history
      ensures Valid() && Restoring(old(history), history)
      ensures history.now.started ==
              old(history).now.started + timers[..Attempts(world, |old(log)|, |timers|)]
      ensures finished <==> NoneRaises(world, |old(log)|, 2 * |timers|)
      ensures well <==> AllAnswerYes(world, |old(log)|, |timers|)
      ensures history.now.good <==> old(history).now.good && well
      ensures Sent(old(history).now.sent, history.now.sent, RestorePlan(timers, |timers|), finished)
      ensures FirstRestored(old(log), log, timers)
    {
      ghost var i;
      finished, well, i := RestoreEach(timers);
      RestorePrefix(timers, i, |timers|);
      SentBefore(old(history).now.sent, history.now.sent, RestorePlan(timers, i), RestorePlan(timers, |timers|));
      assert timers[..|timers|] == timers;
      WentAll(world, |old(log)|, i, |timers|, finished, well);
    }

    // The loop itself: how many timers it came to.
    method RestoreEach(timers: seq<Unit>) returns (finished: bool, well: bool, ghost n: nat)
      requires Valid()
      modifies `log, `history
      ensures Valid() && n <= |timers| && (finished ==> n == |timers|)
      ensures CameTo(old(history), old(log), timers, n, finished, well)
    {
      var i := 0;
      finished, well, n := true, true, 0;
      while i < |timers| && finished
        invariant Valid() && i == n <= |timers|
        invariant CameTo(old(history), old(log), timers, i, finished, well)
        decreases |timers| - i, finished
      {
        finished, well := RestoreNext(old(history), old(log), timers, i, well);
        i, n := i + 1, n + 1;
      }
    }

    // Since then the loop came to the i-th timer.
    ghost predicate CameTo(h: History, l: seq<Entry>, timers: seq<Unit>, i: nat, finished: bool, well: bool)
      requires i <= |timers|
      reads this
    {
      && RestoredTo(h, history, l, log, timers[..i], RestorePlan(timers, i), finished, well)
      && WentTo(world, |l|, i, finished, well) && (finished ==> |log| == |l| + 2 * i)
    }

    method RestoreNext(ghost h: History, ghost l: seq<Entry>, timers: seq<Unit>, i: nat, wellSoFar: bool)
      returns (finished: bool, well: bool)
      requires Valid() && i < |timers| && CameTo(h, l, timers, i, true, wellSoFar)
      modifies `log, `history
      ensures Valid() && CameTo(h, l, timers, i + 1, finished, well)
    {
      var fine;
      finished, fine := RestoreOne(timers[i]);
      RestoredOn(h, old(history), history, l, old(log), log, timers, i, finished, wellSoFar, fine);
      GoesOn(world, |l|, i, wellSoFar, finished, fine);
      well := wellSoFar && fine;
    }

    // The finally block. Whether the results show every timer restored is decided after the
    // loop, so a loop that raised leaves the answer at no.
    method Finally() returns (saved: bool)
      requires Valid() && stopped <= QUIESCED_TIMERS && !allRestored
      modifies `log, `history, `succeeded, `allRestored
      ensures Valid() && Restoring(old(history), history)
      ensures history.now.started ==
              old(history).now.started + Reversed(stopped)[..Attempts(world, |old(log)|, |stopped|)]
      ensures allRestored <==> stopped == QUIESCED_TIMERS && AllAnswerYes(world, |old(log)|, |stopped|)
      ensures !saved ==> !history.now.good
      ensures saved ==> (history.now.good <==> old(history).now.good && AllAnswerYes(world, |old(log)|, |stopped|))
      ensures saved ==> (succeeded <==> old(succeeded) && AllAnswerYes(world, |old(log)|, |stopped|))
      ensures Sent(old(history).now.sent, history.now.sent,
                   RestorePlan(Reversed(stopped), |stopped|) + [Check(SaveRollout)], saved)
      ensures FirstRestored(old(log), log, Reversed(stopped))
    {
      ghost var plan, sent := RestorePlan(Reversed(stopped), |stopped|), history.now.sent;
      var finished, well := RestoreTimers(Reversed(stopped));
      ghost var between := history.now.sent;
      if !finished {
        SentBefore(sent, between, plan, plan + [Check(SaveRollout)]);
        return false;
      }
      SeeRestored(well);
      saved := Save();
      SentOn(sent, between, plan, history.now.sent, [Check(SaveRollout)], saved);
    }

    // The rollout's summary is written.
    method Save() returns (saved: bool)
      requires Valid()
      modifies `log, `history
      ensures Valid() && Unchanging(old(history), history) && old(log) <= log
      ensures history.now.good == (old(history).now.good && saved)
      ensures Sent(old(history).now.sent, history.now.sent, [Check(SaveRollout)], saved)
    {
      saved := Perform([Check(SaveRollout)]);
    }

    // What the restoring results show.
    method SeeRestored(well: bool)
      requires stopped <= QUIESCED_TIMERS
      modifies `succeeded, `allRestored
      ensures succeeded == (old(succeeded) && well) && (allRestored <==> stopped == QUIESCED_TIMERS && well)
    {
      if !well { succeeded := false; }
      allRestored := Members(stopped) == Members(QUIESCED_TIMERS) && well;
      SameTimers(stopped);
    }

    // The try block and its finally.
    method CarryAndRestore() returns (ok: bool, ghost tried: seq<Entry>)
      requires Valid() && history.now.good && history.calm && history.now.sent == OpeningPlan()
      requires stopped == history.now.stopped == history.now.started == [] && history.reindexedIn == []
      requires !allRestored
      modifies this
      ensures Valid() && history.calm && (history.now.good <==> ok && succeeded)
      ensures |history.reindexedIn| <= 1 && forall s :: s in history.reindexedIn ==> ReadyToReindex(s)
      ensures stopped == history.now.stopped <= QUIESCED_TIMERS && Restored()
      ensures ok ==> history.now.sent == PlanOfTry()
      ensures ok && succeeded ==> |history.reindexedIn| == 1 && allRestored
      ensures Tried(tried, log, stopped) && (Read(tried).now.smooth ==> history.now.sent <= PlanOfTry())
    {
      var done := Carry();
      succeeded, tried := done, log;
      var saved := Finally();
      ok := saved && done;
      PlanIsTried(Read(tried).now.sent, history.now.sent, stopped, done, saved);
      NoStartYet(tried);
      GotThere(world, tried, log, stopped, history.now.started, allRestored);
    }

    ghost predicate Restored()
      reads this
    {
      AsFarAsItGets(world, log, stopped, history.now.started, allRestored)
    }

    // The whole rollout, from a fresh summary on. It returns exactly if every answer was
    // good, and then all three timers were started and seen active.
    method RunRollout() returns (ending: Ending, ghost tried: seq<Entry>)
      requires Valid() && log == [] && stopped == [] && !allRestored
      modifies this
      ensures Valid() && Restored()
      ensures ending.Returned? <==> history.now.good
      ensures |history.reindexedIn| <= 1 && forall s :: s in history.reindexedIn ==> ReadyToReindex(s)
      ensures stopped == history.now.stopped <= QUIESCED_TIMERS
      ensures ending.Returned? ==> |history.reindexedIn| == 1 && succeeded && allRestored
      ensures ending.Returned? ==> history.now.sent == PlanOfTry() + RequirePlan(REQUIRED_TIMERS)
      // the log up to the restoring is that of the try block, which follows the plan
      ensures Tried(tried, log, stopped) && history.calm
      ensures Read(tried).now.smooth ==> history.now.sent <= PlanOfTry() + RequirePlan(REQUIRED_TIMERS)
    {
      succeeded := false;
      var ok := Open();
      if !ok { return Raised, log; }
      ok, tried := CarryAndRestore();
      if !ok { return Raised, tried; }
      ok := SeeTimers(tried);
      ending := if ok && succeeded then Returned else Raised;
    }

    // The checks before the try block.
    method Open() returns (ok: bool)
      requires Valid() && log == [] && stopped == [] && !allRestored
      modifies `log, `history
      ensures Valid() && history.now.good == ok && history.calm
      ensures history.now.stopped == history.now.started == [] && history.reindexedIn == []
      ensures ok ==> history.now.sent == OpeningPlan()
      ensures !ok ==> Tried(log, log, []) && !history.now.smooth && Restored()
    {
      OpeningIsPlain();
      ok := Perform(OpeningPlan());
      if !ok {
        NothingTried(log);
        NoneStopped(world, log);
      }
    }

    // After the finally block every required timer is enabled and active.
    method SeeTimers(ghost tried: seq<Entry>) returns (ok: bool)
      requires Valid() && Restored() && Tried(tried, log, stopped)
      modifies `log, `history
      ensures Valid() && Restored() && Tried(tried, log, stopped) && Unchanging(old(history), history)
      ensures history.now.good == (old(history).now.good && ok)
      ensures Sent(old(history).now.sent, history.now.sent, RequirePlan(REQUIRED_TIMERS), ok)
    {
      ghost var before := log;
      RequireIsPlain(REQUIRED_TIMERS);
      ok := Perform(RequirePlan(REQUIRED_TIMERS));
      StillThere(world, before, log, stopped, history.now.started, allRestored);
      TriedStays(tried, before, log, stopped);
    }
  }

  // One command of the restoring loop that raises leaves every timer after it stopped: here
  // the question whether the first timer is active again, in a rollout that went well so far.
  method LeaveTimersDown() returns (r: Rollout)
    ensures fresh(r) && r.Valid() && r.stopped == QUIESCED_TIMERS && r.history.now.started == [V4Timer]
  {
    ghost var n := |CarryPlan()| + 1;
    var world := Obliging(CarryPlan(), |CarryPlan()| + 1);
    r := new Rollout(world);
    var _, tried := r.RunRollout();
    NoCaptureInPlan();
    ObligingIsSmooth(CarryPlan(), n);
    SmoothlyTried(world, tried, r.log, r.stopped);
    assert Attempts(world, n - 1, 3) == 1;
  }
}
