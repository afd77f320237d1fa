// The offline funnel audit: one pass over the evidence lines fills dictionaries and
// counters, then everything is cross-checked and reported.

module CoverageAudit {
  import opened Common
  import opened CommutingFold
  import opened Gathering
  import Distribution

  datatype Venue = Coinbase | BybitSpot | BybitLinear
  datatype Anchor = MarketStart | Current
  datatype Lack = Absent | Stale
  datatype Flag = Flag(venue: Venue, anchor: Anchor, lack: Lack)

  datatype MissedReason = DecisionLagExceeded | InferenceLagExceeded
  datatype RetryStatus = RetryExhausted | ImmediateIneligible
  datatype Pattern = BothAnchors | MarketStartOnly | CurrentOnly
  datatype Kind = PredictionKind | MissedKind | IneligibleKind

  // A field that is absent, of the wrong type or unknown is None, or "" for a name.
  datatype Body =
    | Prediction(id: string)
    | Missed(reason: Option<MissedReason>, lag: Option<real>, observedAt: Option<real>)
    | Ineligible(exhausted: Option<bool>, retries: Option<nat>, flags: Option<seq<Flag>>)

  datatype StartInfo = StartInfo(model: string, policyOk: bool, maximumLag: Option<real>, startedAt: Option<real>)

  datatype EndInfo = EndInfo(
    completedAt: Option<real>,
    seen: Option<nat>, predictions: Option<nat>, missed: Option<nat>, ineligible: Option<nat>,
    evaluated: Option<nat>, quoteMissing: Option<nat>,
    deferrals: Option<nat>, recovered: Option<nat>, exhausted: Option<nat>, pending: Option<nat>)

  datatype Line =
    | NotJson
    | Irrelevant
    | Started(info: StartInfo)
    | Completed(end: EndInfo)
    | Decision(condition: string, at: Option<real>, body: Body)
    | FollowUp(condition: string, evaluated: bool, predictionId: string)

  // A recorded decision, with every field it needs.
  datatype Decided =
    | Predicted(at: real, id: string)
    | WasMissed(at: real, reason: MissedReason, lag: real)
    | WasIneligible(at: real, exhausted: bool, retries: nat, flags: set<Flag>)

  datatype Followed = Followed(evaluated: bool, predictionId: string)

  // ----- What a decision contributes to the counters

  datatype Combination = Combination(coinbase: bool, bybitSpot: bool, bybitLinear: bool)

  // All counters share one bag; a tick says which counter goes up, and at which key.
  datatype Tick =
    | KindTick(kind: Kind)
    | ReasonTick(reason: MissedReason)
    | FlagTick(flag: Flag)
    | VenueTick(venue: Venue)
    | OverlapTick(venues: nat)
    | CombinationTick(combination: Combination)
    | PatternTick(pattern: Pattern)
    | RetryTick(status: RetryStatus)
    | VenueRetryTick(affected: Venue, retry: RetryStatus)
    | DeferralTick // once for every retry of an exhausted market

  function KindOf(d: Decided): Kind {
    match d
    case Predicted(_, _) => PredictionKind
    case WasMissed(_, _, _) => MissedKind
    case WasIneligible(_, _, _, _) => IneligibleKind
  }

  function AffectedBy(d: Decided): set<Venue>
    requires d.WasIneligible?
  {
    set f | f in d.flags :: f.venue
  }

  function StatusOf(d: Decided): RetryStatus
    requires d.WasIneligible?
  {
    if d.exhausted then RetryExhausted else ImmediateIneligible
  }

  predicate HasAnchor(flags: set<Flag>, anchor: Anchor) {
    exists f :: f in flags && f.venue == BybitLinear && f.anchor == anchor
  }

  function PatternOf(flags: set<Flag>): Pattern {
    if HasAnchor(flags, MarketStart) && HasAnchor(flags, Current) then BothAnchors
    else if HasAnchor(flags, MarketStart) then MarketStartOnly
    else CurrentOnly
  }

  function CombinationOf(venues: set<Venue>): Combination {
    Combination(Coinbase in venues, BybitSpot in venues, BybitLinear in venues)
  }

  function SourceTicks(d: Decided): multiset<Tick>
    requires d.WasIneligible?
  {
    var venues := AffectedBy(d);
    multiset{OverlapTick(|venues|), CombinationTick(CombinationOf(venues))}
    + multiset(set f | f in d.flags :: FlagTick(f))
    + multiset(set v | v in venues :: VenueTick(v))
    + if BybitLinear in venues then multiset{PatternTick(PatternOf(d.flags))} else multiset{}
  }

  function RetryTicks(d: Decided): multiset<Tick>
    requires d.WasIneligible?
  {
    multiset{RetryTick(StatusOf(d))} + multiset(set v | v in AffectedBy(d) :: VenueRetryTick(v, StatusOf(d)))
    + multiset{}[DeferralTick := if d.exhausted then d.retries else 0]
  }

  function TicksOf(d: Decided): multiset<Tick> {
    match d
    case Predicted(_, _) => multiset{KindTick(PredictionKind)}
    case WasMissed(_, reason, _) => multiset{KindTick(MissedKind), ReasonTick(reason)}
    case WasIneligible(_, _, _, _) => multiset{KindTick(IneligibleKind)} + SourceTicks(d) + RetryTicks(d)
  }

  function LagFor(reason: MissedReason): Decided -> multiset<real> {
    (d: Decided) => if d.WasMissed? && d.reason == reason then multiset{d.lag} else multiset{}
  }

  function ExhaustedOf(d: Decided): multiset<real> {
    if d.WasIneligible? && d.exhausted then multiset{d.retries as real} else multiset{}
  }

  function Slot(start: real, at: real): int {
    var slot := ((at - start) / 7200.0).Floor;
    if slot < 0 then 0 else slot
  }

  function TwoHourOf(start: real): Decided -> multiset<(int, Kind)> {
    (d: Decided) => multiset{(Slot(start, d.at), KindOf(d))}
  }

  function TwoHourVenuesOf(start: real): Decided -> multiset<(int, set<Venue>)> {
    (d: Decided) => if d.WasIneligible? then multiset{(Slot(start, d.at), AffectedBy(d))} else multiset{}
  }

  function EvaluatedOf(f: Followed): multiset<bool> {
    multiset{f.evaluated}
  }

  // ----- The pass over the lines

  datatype Acc = Acc(
    starts: multiset<StartInfo>,
    completions: multiset<EndInfo>,
    decisions: map<string, Decided>,
    followups: map<string, Followed>,
    predictionIds: map<string, string>,
    ignored: nat)

  const EMPTY := Acc(multiset{}, multiset{}, map[], map[], map[], 0)

  function Abs(x: real): real { if x < 0.0 then -x else x }

  function Elements<T>(s: seq<T>): set<T> {
    set x | x in s
  }

  predicate Distinct<T(==)>(s: seq<T>) {
    |Elements(s)| == |s|
  }

  // What a decision line is worth once all its own checks pass.
  function Decide(at: Option<real>, body: Body): Option<Decided> {
    if at.None? then None else
    match body
    case Prediction(id) => if id == "" then None else Some(Predicted(at.value, id))
    case Missed(reason, lag, observedAt) =>
      if reason.None? || lag.None? || observedAt.None? then None
      else if lag.value < 0.0 || Abs(observedAt.value - at.value - lag.value) >= 0.01 then None
      else Some(WasMissed(at.value, reason.value, lag.value))
    case Ineligible(exhausted, retries, flags) =>
      if exhausted.None? || retries.None? || flags.None? then None
      else if exhausted.value != (retries.value > 0) || flags.value == [] || !Distinct(flags.value) then None
      else Some(WasIneligible(at.value, exhausted.value, retries.value, Elements(flags.value)))
  }

  function AddDecision(acc: Acc, c: string, d: Decided): Acc {
    acc.(decisions := acc.decisions[c := d],
         predictionIds := if d.Predicted? then acc.predictionIds[d.id := c] else acc.predictionIds)
  }

  predicate Fresh(acc: Acc, c: string, d: Decided) {
    c !in acc.decisions && (d.Predicted? ==> d.id !in acc.predictionIds)
  }

  function Step(acc: Acc, line: Line): Option<Acc> {
    match line
    case NotJson => Some(acc.(ignored := acc.ignored + 1))
    case Irrelevant => Some(acc)
    case Started(info) => Some(acc.(starts := acc.starts + multiset{info}))
    case Completed(end) => Some(acc.(completions := acc.completions + multiset{end}))
    case FollowUp(c, evaluated, id) =>
      if c == "" || c in acc.followups || id == "" then None
      else Some(acc.(followups := acc.followups[c := Followed(evaluated, id)]))
    case Decision(c, at, body) =>
      var d := Decide(at, body);
      if c == "" || d.None? || !Fresh(acc, c, d.value) then None
      else Some(AddDecision(acc, c, d.value))
  }

  function Scan(lines: seq<Line>): Option<Acc> {
    Fold(Step, EMPTY, lines)
  }

  // ----- The cross-checks and the report

  datatype Report = Report(
    seen: nat, evaluated: nat, quoteMissing: nat,
    ticks: multiset<Tick>,
    decisionLag: Option<Distribution.Stats>, inferenceLag: Option<Distribution.Stats>,
    exhaustedRetries: Option<Distribution.Stats>,
    twoHour: multiset<(int, Kind)>, twoHourVenues: multiset<(int, set<Venue>)>,
    deferrals: nat, recovered: nat, exhausted: nat, ignored: nat)

  // The counters over all decisions, in whatever order these are visited.
  ghost function Ticks(acc: Acc): multiset<Tick> {
    Gather(acc.decisions, TicksOf)
  }

  ghost predicate StartOk(info: StartInfo, model: string) {
    && info.model == model && info.policyOk
    && info.maximumLag.Some? && info.maximumLag.value > 0.0
  }

  // Decisions inside the window, follow-ups exactly for the predictions.
  ghost predicate DecisionOk(acc: Acc, c: string, start: real, end: real)
    requires c in acc.decisions
  {
    var d := acc.decisions[c];
    && start <= d.at <= end
    && (c in acc.followups <==> d.Predicted?)
    && (d.Predicted? ==> acc.followups[c].predictionId == d.id)
  }

  // Every check after the pass; t holds the counters, f how many follow-ups were evaluated.
  ghost predicate ReconciledWith(acc: Acc, t: multiset<Tick>, f: multiset<bool>, info: StartInfo, end: EndInfo,
                                 model: string) {
    && StartOk(info, model)
    && (forall c :: c in acc.decisions && acc.decisions[c].WasMissed? ==> acc.decisions[c].lag > info.maximumLag.value)
    && info.startedAt.Some? && end.completedAt.Some? && end.completedAt.value > info.startedAt.value
    && (forall c :: c in acc.decisions ==> DecisionOk(acc, c, info.startedAt.value, end.completedAt.value))
    && (forall c :: c in acc.followups ==> c in acc.decisions)
    && acc.decisions != map[]
    && CountsAgree(|acc.decisions|, t, f, end)
  }

  // The completion record repeats what was counted.
  predicate CountsAgree(seen: nat, t: multiset<Tick>, f: multiset<bool>, end: EndInfo) {
    && end.seen == Some(seen)
    && end.predictions == Some(t[KindTick(PredictionKind)])
    && end.missed == Some(t[KindTick(MissedKind)])
    && end.ineligible == Some(t[KindTick(IneligibleKind)])
    && end.evaluated == Some(f[true])
    && end.quoteMissing == Some(f[false])
    && end.deferrals.Some? && end.recovered.Some? && end.pending == Some(0)
    && end.exhausted == Some(t[RetryTick(RetryExhausted)])
    && (end.recovered == Some(0) ==> end.deferrals == Some(t[DeferralTick]))
  }

  ghost predicate Reconciled(acc: Acc, info: StartInfo, end: EndInfo, model: string) {
    ReconciledWith(acc, Ticks(acc), Gather(acc.followups, EvaluatedOf), info, end, model)
  }

  ghost function ReportOf(acc: Acc, info: StartInfo, end: EndInfo): Report
    requires info.startedAt.Some? && end.deferrals.Some? && end.recovered.Some? && end.exhausted.Some?
  {
    var ds, start := acc.decisions, info.startedAt.value;
    Report(|ds|, Gather(acc.followups, EvaluatedOf)[true], Gather(acc.followups, EvaluatedOf)[false],
           Ticks(acc),
           Distribution.StatsOfBag(Gather(ds, LagFor(DecisionLagExceeded))),
           Distribution.StatsOfBag(Gather(ds, LagFor(InferenceLagExceeded))),
           Distribution.StatsOfBag(Gather(ds, ExhaustedOf)),
           Gather(ds, TwoHourOf(start)), Gather(ds, TwoHourVenuesOf(start)),
           end.deferrals.value, end.recovered.value, end.exhausted.value, acc.ignored)
  }

  // The whole audit, as a specification.
  ghost predicate Accepts(lines: seq<Line>, model: string, acc: Acc, info: StartInfo, end: EndInfo) {
    && Scan(lines) == Some(acc)
    && acc.starts == multiset{info} && acc.completions == multiset{end}
    && Reconciled(acc, info, end, model)
  }

  // ----- Order does not matter

  lemma BagsCommute<T>(m: multiset<T>, a: T, b: T)
    ensures m + multiset{a} + multiset{b} == m + multiset{b} + multiset{a}
  {}

  lemma FollowUpsCommute(acc: Acc, a: Line, b: Line)
    requires a.FollowUp? && b.FollowUp?
    ensures Then(Step, Step(acc, a), b) == Then(Step, Step(acc, b), a)
  {
    if a.condition != b.condition {
      var x, y := Followed(a.evaluated, a.predictionId), Followed(b.evaluated, b.predictionId);
      assert acc.followups[a.condition := x][b.condition := y] == acc.followups[b.condition := y][a.condition := x];
    }
  }

  lemma StartsCommute(acc: Acc, a: Line, b: Line)
    requires a.Started? && b.Started?
    ensures Then(Step, Step(acc, a), b) == Then(Step, Step(acc, b), a)
  {
    BagsCommute(acc.starts, a.info, b.info);
  }

  lemma CompletionsCommute(acc: Acc, a: Line, b: Line)
    requires a.Completed? && b.Completed?
    ensures Then(Step, Step(acc, a), b) == Then(Step, Step(acc, b), a)
  {
    BagsCommute(acc.completions, a.end, b.end);
  }

  // Lines of different kinds touch different fields.
  lemma DecisionCommutesWithOthers(acc: Acc, a: Line, b: Line)
    requires a.Decision? && !b.Decision?
    ensures Then(Step, Step(acc, a), b) == Then(Step, Step(acc, b), a)
  {}

  lemma OthersCommute(acc: Acc, a: Line, b: Line)
    requires !(a.Started? && b.Started?) && !(a.Completed? && b.Completed?) && !(a.FollowUp? && b.FollowUp?)
    requires !a.Decision? && !b.Decision?
    ensures Then(Step, Step(acc, a), b) == Then(Step, Step(acc, b), a)
  {}

  lemma StepCommutes(acc: Acc, a: Line, b: Line)
    ensures Then(Step, Step(acc, a), b) == Then(Step, Step(acc, b), a)
  {
    if a.Started? && b.Started? { StartsCommute(acc, a, b); }
    else if a.Completed? && b.Completed? { CompletionsCommute(acc, a, b); }
    else if a.Decision? && b.Decision? { DecisionsCommute(acc, a, b); }
    else if a.FollowUp? && b.FollowUp? { FollowUpsCommute(acc, a, b); }
    else if a.Decision? { DecisionCommutesWithOthers(acc, a, b); }
    else if b.Decision? { DecisionCommutesWithOthers(acc, b, a); }
    else { OthersCommute(acc, a, b); }
  }

  // Two decisions that do not exclude each other.
  predicate Apart(a: string, d: Decided, b: string, e: Decided) {
    a != b && !(d.Predicted? && e.Predicted? && d.id == e.id)
  }

  lemma TwoDecisions(acc: Acc, a: Line, d: Decided, b: Line, e: Decided)
    requires a.Decision? && b.Decision? && Decide(a.at, a.body) == Some(d) && Decide(b.at, b.body) == Some(e)
    requires a.condition != "" && b.condition != ""
    ensures Then(Step, Step(acc, a), b)
         == if Fresh(acc, a.condition, d) && Fresh(acc, b.condition, e) && Apart(a.condition, d, b.condition, e)
            then Some(AddDecision(AddDecision(acc, a.condition, d), b.condition, e)) else None
  {}

  lemma DecisionsCommute(acc: Acc, a: Line, b: Line)
    requires a.Decision? && b.Decision?
    ensures Then(Step, Step(acc, a), b) == Then(Step, Step(acc, b), a)
  {
    var d, e := Decide(a.at, a.body), Decide(b.at, b.body);
    if d.Some? && e.Some? && a.condition != "" && b.condition != "" {
      TwoDecisions(acc, a, d.value, b, e.value);
      TwoDecisions(acc, b, e.value, a, d.value);
      if Apart(a.condition, d.value, b.condition, e.value) {
        AdditionsCommute(acc, a.condition, d.value, b.condition, e.value);
      }
    }
  }

  lemma AdditionsCommute(acc: Acc, a: string, d: Decided, b: string, e: Decided)
    requires Apart(a, d, b, e)
    ensures AddDecision(AddDecision(acc, a, d), b, e) == AddDecision(AddDecision(acc, b, e), a, d)
  {
    assert acc.decisions[a := d][b := e] == acc.decisions[b := e][a := d];
    if d.Predicted? && e.Predicted? {
      assert acc.predictionIds[d.id := a][e.id := b] == acc.predictionIds[e.id := b][d.id := a];
    }
  }

  // Acceptance and the whole report are the same for every permutation of the lines.
  lemma AuditIgnoresOrder(a: seq<Line>, b: seq<Line>, model: string, acc: Acc, info: StartInfo, end: EndInfo)
    requires multiset(a) == multiset(b)
    ensures Accepts(a, model, acc, info, end) <==> Accepts(b, model, acc, info, end)
  {
    forall s, x, y ensures Then(Step, Step(s, x), y) == Then(Step, Step(s, y), x) { StepCommutes(s, x, y); }
    FoldIgnoresOrder(Step, EMPTY, a, b);
  }

  // The evidence determines what is accepted: one accumulator, one start, one end.
  lemma AcceptanceIsUnique(lines: seq<Line>, model: string, acc: Acc, info: StartInfo, end: EndInfo,
                           acc': Acc, info': StartInfo, end': EndInfo)
    requires Accepts(lines, model, acc, info, end) && Accepts(lines, model, acc', info', end')
    ensures acc == acc' && info == info' && end == end'
  {
    assert info' in acc.starts && end' in acc.completions;
  }

  // So two audits of the same evidence, its lines in whatever order, print one report.
  lemma AcceptedReportIgnoresOrder(a: seq<Line>, b: seq<Line>, model: string, acc: Acc, info: StartInfo, end: EndInfo,
                                   acc': Acc, info': StartInfo, end': EndInfo)
    requires multiset(a) == multiset(b)
    requires Accepts(a, model, acc, info, end) && Accepts(b, model, acc', info', end')
    ensures ReportOf(acc, info, end) == ReportOf(acc', info', end')
  {
    AuditIgnoresOrder(a, b, model, acc, info, end);
    AcceptanceIsUnique(b, model, acc, info, end, acc', info', end');
  }

  // ----- What acceptance means

  function CombinationTotal(t: multiset<Tick>): nat {
    t[CombinationTick(Combination(true, true, true))] + t[CombinationTick(Combination(true, true, false))]
    + t[CombinationTick(Combination(true, false, true))] + t[CombinationTick(Combination(true, false, false))]
    + t[CombinationTick(Combination(false, true, true))] + t[CombinationTick(Combination(false, true, false))]
    + t[CombinationTick(Combination(false, false, true))]
  }

  function PatternTotal(t: multiset<Tick>): nat {
    t[PatternTick(BothAnchors)] + t[PatternTick(MarketStartOnly)] + t[PatternTick(CurrentOnly)]
  }

  // The counters of a bag of ticks sum to the populations they split.
  ghost predicate Balanced(t: multiset<Tick>) {
    && t[ReasonTick(DecisionLagExceeded)] + t[ReasonTick(InferenceLagExceeded)] == t[KindTick(MissedKind)]
    && t[RetryTick(RetryExhausted)] + t[RetryTick(ImmediateIneligible)] == t[KindTick(IneligibleKind)]
    && CombinationTotal(t) == t[KindTick(IneligibleKind)]
    && t[OverlapTick(1)] + t[OverlapTick(2)] + t[OverlapTick(3)] == t[KindTick(IneligibleKind)]
    && PatternTotal(t) == t[VenueTick(BybitLinear)]
    && forall v :: t[VenueRetryTick(v, RetryExhausted)] + t[VenueRetryTick(v, ImmediateIneligible)] == t[VenueTick(v)]
  }

  lemma VenueSets(venues: set<Venue>)
    requires venues != {}
    ensures 1 <= |venues| <= 3
    ensures CombinationOf(venues) != Combination(false, false, false)
  {
    var v :| v in venues;
    var all := {Coinbase, BybitSpot, BybitLinear};
    forall u | u in venues ensures u in all { match u case Coinbase => case BybitSpot => case BybitLinear => }
    SubsetSize(venues, all);
    match v case Coinbase => case BybitSpot => case BybitLinear =>
  }

  lemma {:induction false} SubsetSize<T>(a: set<T>, b: set<T>)
    requires a <= b
    ensures |a| <= |b|
  {
    if a != {} {
      var x :| x in a;
      SubsetSize(a - {x}, b - {x});
    }
  }

  // A recorded ineligible decision names at least one flag.
  predicate Grounded(d: Decided) {
    d.WasIneligible? ==> d.flags != {}
  }

  lemma VenueCount(d: Decided, v: Venue)
    requires d.WasIneligible?
    ensures TicksOf(d)[VenueTick(v)] == if v in AffectedBy(d) then 1 else 0
  {}

  lemma OverlapCount(d: Decided, n: nat)
    requires d.WasIneligible?
    ensures TicksOf(d)[OverlapTick(n)] == if n == |AffectedBy(d)| then 1 else 0
  {}

  lemma CombinationCount(d: Decided, x: Combination)
    requires d.WasIneligible?
    ensures TicksOf(d)[CombinationTick(x)] == if x == CombinationOf(AffectedBy(d)) then 1 else 0
  {}

  lemma PatternCount(d: Decided, p: Pattern)
    requires d.WasIneligible?
    ensures TicksOf(d)[PatternTick(p)] == if BybitLinear in AffectedBy(d) && p == PatternOf(d.flags) then 1 else 0
  {}

  lemma RetryCount(d: Decided, r: RetryStatus)
    requires d.WasIneligible?
    ensures TicksOf(d)[RetryTick(r)] == if r == StatusOf(d) then 1 else 0
  {}

  lemma VenueRetryCount(d: Decided, v: Venue, r: RetryStatus)
    requires d.WasIneligible?
    ensures TicksOf(d)[VenueRetryTick(v, r)] == if v in AffectedBy(d) && r == StatusOf(d) then 1 else 0
  {}

  lemma OneCombination(d: Decided)
    requires d.WasIneligible? && d.flags != {}
    ensures CombinationTotal(TicksOf(d)) == 1
  {
    var f :| f in d.flags;
    assert f.venue in AffectedBy(d);
    VenueSets(AffectedBy(d));
    CombinationCount(d, Combination(true, true, true));
    CombinationCount(d, Combination(true, true, false));
    CombinationCount(d, Combination(true, false, true));
    CombinationCount(d, Combination(true, false, false));
    CombinationCount(d, Combination(false, true, true));
    CombinationCount(d, Combination(false, true, false));
    CombinationCount(d, Combination(false, false, true));
  }

  lemma OneOverlap(d: Decided)
    requires d.WasIneligible? && d.flags != {}
    ensures TicksOf(d)[OverlapTick(1)] + TicksOf(d)[OverlapTick(2)] + TicksOf(d)[OverlapTick(3)] == 1
  {
    var f :| f in d.flags;
    assert f.venue in AffectedBy(d);
    VenueSets(AffectedBy(d));
    OverlapCount(d, 1);
    OverlapCount(d, 2);
    OverlapCount(d, 3);
  }

  lemma OnePattern(d: Decided)
    requires d.WasIneligible?
    ensures PatternTotal(TicksOf(d)) == TicksOf(d)[VenueTick(BybitLinear)]
  {
    VenueCount(d, BybitLinear);
    PatternCount(d, BothAnchors);
    PatternCount(d, MarketStartOnly);
    PatternCount(d, CurrentOnly);
  }

  lemma RetriesSplit(d: Decided, v: Venue)
    requires d.WasIneligible?
    ensures TicksOf(d)[RetryTick(RetryExhausted)] + TicksOf(d)[RetryTick(ImmediateIneligible)] == 1
    ensures TicksOf(d)[VenueRetryTick(v, RetryExhausted)] + TicksOf(d)[VenueRetryTick(v, ImmediateIneligible)]
         == TicksOf(d)[VenueTick(v)]
  {
    RetryCount(d, RetryExhausted);
    RetryCount(d, ImmediateIneligible);
    VenueRetryCount(d, v, RetryExhausted);
    VenueRetryCount(d, v, ImmediateIneligible);
    VenueCount(d, v);
  }

  lemma KindCount(d: Decided, k: Kind)
    ensures TicksOf(d)[KindTick(k)] == if k == KindOf(d) then 1 else 0
  {}

  lemma ReasonCount(d: Decided, r: MissedReason)
    ensures TicksOf(d)[ReasonTick(r)] == if d.WasMissed? && r == d.reason then 1 else 0
  {}

  lemma OthersHaveNone(d: Decided)
    requires !d.WasIneligible?
    ensures forall t: Tick :: !t.KindTick? && !t.ReasonTick? ==> TicksOf(d)[t] == 0
  {}

  lemma TicksBalanced(d: Decided)
    requires Grounded(d)
    ensures Balanced(TicksOf(d))
  {
    KindCount(d, MissedKind);
    KindCount(d, IneligibleKind);
    ReasonCount(d, DecisionLagExceeded);
    ReasonCount(d, InferenceLagExceeded);
    if d.WasIneligible? {
      OneCombination(d);
      OneOverlap(d);
      OnePattern(d);
      RetriesSplit(d, BybitLinear);
      forall v ensures TicksOf(d)[VenueRetryTick(v, RetryExhausted)]
                       + TicksOf(d)[VenueRetryTick(v, ImmediateIneligible)]
                    == TicksOf(d)[VenueTick(v)] { RetriesSplit(d, v); }
    } else {
      OthersHaveNone(d);
    }
  }

  lemma PlusBalanced(a: multiset<Tick>, b: multiset<Tick>)
    requires Balanced(a) && Balanced(b)
    ensures Balanced(a + b)
  {}

  function KindBag(d: Decided): multiset<Kind> {
    multiset{KindOf(d)}
  }

  ghost predicate WellFormed(acc: Acc) {
    forall c :: c in acc.decisions ==>
      && Grounded(acc.decisions[c])
      && (acc.decisions[c].Predicted? ==>
            acc.decisions[c].id in acc.predictionIds && acc.predictionIds[acc.decisions[c].id] == c)
  }

  lemma DecideGrounded(at: Option<real>, body: Body)
    ensures Decide(at, body).Some? ==> Grounded(Decide(at, body).value)
  {
    if body.Ineligible? && body.flags.Some? && body.flags.value != [] {
      assert body.flags.value[0] in Elements(body.flags.value);
    }
  }

  lemma {:induction false} ScanWellFormed(lines: seq<Line>)
    ensures Scan(lines).Some? ==> WellFormed(Scan(lines).value)
  {
    if lines != [] {
      var n := |lines| - 1;
      ScanWellFormed(lines[..n]);
      if lines[n].Decision? { DecideGrounded(lines[n].at, lines[n].body); }
    }
  }

  lemma {:induction false} TotalsBalanced(ds: map<string, Decided>)
    requires forall c :: c in ds ==> Grounded(ds[c])
    ensures Balanced(Gather(ds, TicksOf))
    decreases |ds|
  {
    if |ds| != 0 {
      var c :| c in ds;
      GatherAny(ds, TicksOf, c);
      TotalsBalanced(ds - {c});
      TicksBalanced(ds[c]);
      PlusBalanced(TicksOf(ds[c]), Gather(ds - {c}, TicksOf));
    }
  }

  lemma TotalKinds(ds: map<string, Decided>, k: Kind)
    ensures Gather(ds, TicksOf)[KindTick(k)] == Gather(ds, KindBag)[k]
  {
    forall c | c in ds ensures TicksOf(ds[c])[KindTick(k)] == KindBag(ds[c])[k] { KindCount(ds[c], k); }
    GatherSame(ds, TicksOf, KindTick(k), KindBag, k);
  }

  lemma KindsSplit(m: multiset<Kind>)
    ensures |m| == m[PredictionKind] + m[MissedKind] + m[IneligibleKind]
  {
    var a := multiset{}[PredictionKind := m[PredictionKind]];
    var b := multiset{}[MissedKind := m[MissedKind]];
    var c := multiset{}[IneligibleKind := m[IneligibleKind]];
    forall k: Kind ensures m[k] == (a + b + c)[k] {
      match k case PredictionKind => case MissedKind => case IneligibleKind =>
    }
    assert m == a + b + c;
  }

  lemma BoolsSplit(m: multiset<bool>)
    ensures |m| == m[true] + m[false]
  {
    var a, b := multiset{}[true := m[true]], multiset{}[false := m[false]];
    forall k: bool ensures m[k] == (a + b)[k] { if k {} }
    assert m == a + b;
  }

  function PredictedUnit(d: Decided): multiset<bool> {
    if d.Predicted? then multiset{true} else multiset{}
  }

  lemma PredictedKinds(ds: map<string, Decided>)
    ensures Gather(ds, KindBag)[PredictionKind] == |Gather(ds, PredictedUnit)|
  {
    GatherCount(ds, KindBag, PredictionKind, PredictedUnit);
  }

  lemma PredictionsFollowed(ds: map<string, Decided>, fs: map<string, Followed>)
    requires forall c :: c in fs <==> c in ds && ds[c].Predicted?
    ensures Gather(ds, KindBag)[PredictionKind] == |fs|
  {
    PredictedKinds(ds);
    GatherOnKeys(ds, PredictedUnit, fs.Keys);
    assert |fs.Keys| == |fs|;
  }

  // An accepted run: predictions and follow-ups correspond one to one under equal
  // ids, and no two predictions share an id.
  lemma FollowUpsMatchPredictions(lines: seq<Line>, model: string, acc: Acc, info: StartInfo, end: EndInfo)
    requires Accepts(lines, model, acc, info, end)
    ensures forall c :: c in acc.followups <==> c in acc.decisions && acc.decisions[c].Predicted?
    ensures forall c :: c in acc.followups ==> acc.followups[c].predictionId == acc.decisions[c].id
    ensures forall b, c :: b in acc.followups && c in acc.followups && b != c ==>
              acc.followups[b].predictionId != acc.followups[c].predictionId
  {
    ScanWellFormed(lines);
    forall c | c in acc.decisions ensures DecisionOk(acc, c, info.startedAt.value, end.completedAt.value) {}
  }

  // The funnel adds up: seen markets split into predictions, misses and ineligibles,
  // predictions into evaluated and quote-missing, and every breakdown sums to the
  // population it splits. So the report's own checks on venue combinations and on
  // anchor patterns cannot fail.
  lemma FunnelAddsUp(lines: seq<Line>, model: string, acc: Acc, info: StartInfo, end: EndInfo)
    requires Accepts(lines, model, acc, info, end)
    ensures var r := ReportOf(acc, info, end);
            && r.seen == r.ticks[KindTick(PredictionKind)] + r.ticks[KindTick(MissedKind)]
                         + r.ticks[KindTick(IneligibleKind)]
            && r.ticks[KindTick(PredictionKind)] == r.evaluated + r.quoteMissing
            && Balanced(r.ticks)
  {
    FollowUpsMatchPredictions(lines, model, acc, info, end);
    ScanWellFormed(lines);
    TotalsBalanced(acc.decisions);
    TotalKinds(acc.decisions, PredictionKind);
    TotalKinds(acc.decisions, MissedKind);
    TotalKinds(acc.decisions, IneligibleKind);
    GatherOnes(acc.decisions, KindBag);
    KindsSplit(Gather(acc.decisions, KindBag));
    PredictionsFollowed(acc.decisions, acc.followups);
    GatherOnes(acc.followups, EvaluatedOf);
    BoolsSplit(Gather(acc.followups, EvaluatedOf));
  }

  lemma IneligibleBuckets(ds: map<string, Decided>, start: real)
    ensures |Gather(ds, TwoHourVenuesOf(start))| == Gather(ds, KindBag)[IneligibleKind]
  {
    GatherCount(ds, KindBag, IneligibleKind, TwoHourVenuesOf(start));
  }

  // The two-hour windows split the same two populations.
  lemma TwoHourWindowsAddUp(lines: seq<Line>, model: string, acc: Acc, info: StartInfo, end: EndInfo)
    requires Accepts(lines, model, acc, info, end)
    ensures var r := ReportOf(acc, info, end);
            |r.twoHour| == r.seen && |r.twoHourVenues| == r.ticks[KindTick(IneligibleKind)]
  {
    var start := info.startedAt.value;
    forall c | c in acc.decisions ensures |TwoHourOf(start)(acc.decisions[c])| == 1 {}
    GatherOnes(acc.decisions, TwoHourOf(start));
    TotalKinds(acc.decisions, IneligibleKind);
    IneligibleBuckets(acc.decisions, start);
  }
}
