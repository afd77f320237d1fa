// The audit as the script runs it: dictionaries and counters filled line by line,
// then loops over the recorded decisions. It computes the specified report.

module CoverageRun {
  import opened Common
  import opened CommutingFold
  import opened Gathering
  import opened CoverageAudit
  import Distribution

  function AddUp(s: seq<real>): real {
    if s == [] then 0.0 else AddUp(s[..|s| - 1]) + s[|s| - 1]
  }

  lemma SumAppend(s: seq<real>, x: real)
    ensures AddUp(s + [x]) == AddUp(s) + x
  {
    assert (s + [x])[..|s|] == s;
  }

  ghost predicate Adds<B>(total: map<string, Decided> -> multiset<B>, f: Decided -> multiset<B>) {
    && total(map[]) == multiset{}
    && forall ds, c, d :: c !in ds ==> total(ds[c := d]) == total(ds) + f(d)
  }

  // A decision that yields nothing leaves the total alone; one element goes in with the list.
  lemma Follows<B>(total: map<string, Decided> -> multiset<B>, f: Decided -> multiset<B>,
                   ds: map<string, Decided>, c: string, d: Decided, list: seq<B>)
    requires Adds(total, f) && c !in ds && multiset(list) == total(ds)
    ensures f(d) == multiset{} ==> total(ds[c := d]) == multiset(list)
    ensures forall x :: f(d) == multiset{x} ==> total(ds[c := d]) == multiset(list + [x])
  {
    assert total(ds[c := d]) == total(ds) + f(d);
  }

  ghost function GatheringOf<B>(f: Decided -> multiset<B>): map<string, Decided> -> multiset<B> {
    (ds: map<string, Decided>) => Gather(ds, f)
  }

  lemma GatheringAdds<B>(f: Decided -> multiset<B>)
    ensures Adds(GatheringOf(f), f)
  {
    forall ds: map<string, Decided>, c, d | c !in ds ensures GatheringOf(f)(ds[c := d]) == GatheringOf(f)(ds) + f(d) {
      GatherAdd(ds, f, c, d);
    }
  }

  function RetriesOf(d: Decided): nat {
    if d.WasIneligible? && d.exhausted then d.retries else 0
  }

  lemma DeferralCount(d: Decided)
    ensures TicksOf(d)[DeferralTick] == RetriesOf(d)
  {}

  class FunnelAudit {
    var starts: seq<StartInfo>
    var completions: seq<EndInfo>
    var decisions: map<string, Decided>
    var followups: map<string, Followed>
    var predictionIds: map<string, string>
    var ignored: nat
    var ticks: multiset<Tick>
    var decisionLags: seq<real>
    var inferenceLags: seq<real>
    var exhaustedRetries: seq<real>

    ghost function Now(): Acc
      reads this
    {
      Acc(multiset(starts), multiset(completions), decisions, followups, predictionIds, ignored)
    }

    // What each counter and list adds up to over given decisions.
    ghost const tickTotal: map<string, Decided> -> multiset<Tick>
    ghost const decisionLagTotal: map<string, Decided> -> multiset<real>
    ghost const inferenceLagTotal: map<string, Decided> -> multiset<real>
    ghost const exhaustedTotal: map<string, Decided> -> multiset<real>

    ghost predicate Lawful() {
      && Adds(tickTotal, TicksOf) && Adds(exhaustedTotal, ExhaustedOf)
      && Adds(decisionLagTotal, LagFor(DecisionLagExceeded)) && Adds(inferenceLagTotal, LagFor(InferenceLagExceeded))
    }

    // The totals are those of the specification.
    ghost predicate Specified() {
      forall ds: map<string, Decided> {:trigger tickTotal(ds)} ::
        && tickTotal(ds) == Gather(ds, TicksOf)
        && decisionLagTotal(ds) == Gather(ds, LagFor(DecisionLagExceeded))
        && inferenceLagTotal(ds) == Gather(ds, LagFor(InferenceLagExceeded))
        && exhaustedTotal(ds) == Gather(ds, ExhaustedOf)
    }

    ghost predicate Counted()
      reads this`decisions, this`ticks, this`decisionLags, this`inferenceLags, this`exhaustedRetries
    {
      && Lawful()
      && ticks == tickTotal(decisions)
      && multiset(decisionLags) == decisionLagTotal(decisions)
      && multiset(inferenceLags) == inferenceLagTotal(decisions)
      && multiset(exhaustedRetries) == exhaustedTotal(decisions)
      && AddUp(exhaustedRetries) == ticks[DeferralTick] as real
    }

    constructor ()
      ensures Now() == EMPTY && Counted() && Specified()
    {
      starts, completions, decisions, followups, predictionIds, ignored := [], [], map[], map[], map[], 0;
      ticks, decisionLags, inferenceLags, exhaustedRetries := multiset{}, [], [], [];
      tickTotal := GatheringOf(TicksOf);
      decisionLagTotal := GatheringOf(LagFor(DecisionLagExceeded));
      inferenceLagTotal := GatheringOf(LagFor(InferenceLagExceeded));
      exhaustedTotal := GatheringOf(ExhaustedOf);
      new;
      GatheringAdds(TicksOf);
      GatheringAdds(LagFor(DecisionLagExceeded));
      GatheringAdds(LagFor(InferenceLagExceeded));
      GatheringAdds(ExhaustedOf);
    }

    method CountTicks(ghost c: string, d: Decided)
      requires Lawful() && c !in decisions && ticks == tickTotal(decisions)
      modifies this`ticks
      ensures ticks == tickTotal(decisions[c := d])
      ensures ticks[DeferralTick] == old(ticks[DeferralTick]) + RetriesOf(d)
    {
      DeferralCount(d);
      assert tickTotal(decisions[c := d]) == tickTotal(decisions) + TicksOf(d);
      match d {
        case Predicted(_, _) => ticks := ticks + multiset{KindTick(PredictionKind)};
        case WasMissed(_, reason, _) => ticks := ticks + multiset{KindTick(MissedKind), ReasonTick(reason)};
        case WasIneligible(_, _, _, _) =>
          ticks := ticks + (multiset{KindTick(IneligibleKind)} + SourceTicks(d) + RetryTicks(d));
      }
    }

    method ListLag(ghost c: string, d: Decided)
      requires Lawful() && c !in decisions
      requires multiset(decisionLags) == decisionLagTotal(decisions)
      requires multiset(inferenceLags) == inferenceLagTotal(decisions)
      modifies this`decisionLags, this`inferenceLags
      ensures multiset(decisionLags) == decisionLagTotal(decisions[c := d])
      ensures multiset(inferenceLags) == inferenceLagTotal(decisions[c := d])
    {
      Follows(decisionLagTotal, LagFor(DecisionLagExceeded), decisions, c, d, decisionLags);
      Follows(inferenceLagTotal, LagFor(InferenceLagExceeded), decisions, c, d, inferenceLags);
      if d.WasMissed? {
        if d.reason.DecisionLagExceeded? {
          decisionLags := decisionLags + [d.lag];
        } else {
          inferenceLags := inferenceLags + [d.lag];
        }
      }
    }

    method ListRetries(ghost c: string, d: Decided)
      requires Lawful() && c !in decisions && multiset(exhaustedRetries) == exhaustedTotal(decisions)
      modifies this`exhaustedRetries
      ensures multiset(exhaustedRetries) == exhaustedTotal(decisions[c := d])
      ensures AddUp(exhaustedRetries) == old(AddUp(exhaustedRetries)) + RetriesOf(d) as real
    {
      Follows(exhaustedTotal, ExhaustedOf, decisions, c, d, exhaustedRetries);
      if d.WasIneligible? && d.exhausted {
        SumAppend(exhaustedRetries, d.retries as real);
        exhaustedRetries := exhaustedRetries + [d.retries as real];
      }
    }

    // A decision that passed its checks goes into the dictionary, the lists and the counters.
    method Record(c: string, d: Decided)
      requires Counted() && c !in decisions
      modifies this`decisions, this`ticks, this`decisionLags, this`inferenceLags, this`exhaustedRetries
      ensures Counted() && decisions == old(decisions)[c := d]
    {
      CountTicks(c, d);
      ListLag(c, d);
      ListRetries(c, d);
      decisions := decisions[c := d];
    }

    // The branches of one iteration of the scanning loop; false stands for the
    // evidence error.
    method ReadDecision(c: string, at: Option<real>, body: Body) returns (ok: bool)
      requires Counted()
      modifies this`decisions, this`predictionIds, this`ticks, this`decisionLags, this`inferenceLags,
               this`exhaustedRetries
      ensures ok <==> c != "" && Decide(at, body).Some? && Fresh(old(Now()), c, Decide(at, body).value)
      ensures ok ==> Counted() && Now() == CoverageAudit.AddDecision(old(Now()), c, Decide(at, body).value)
    {
      if c == "" || c in decisions { return false; }
      var decided := Decide(at, body);
      if decided.None? { return false; }
      if decided.value.Predicted? {
        if decided.value.id in predictionIds { return false; }
        predictionIds := predictionIds[decided.value.id := c];
      }
      Record(c, decided.value);
      return true;
    }

    method ReadFollowUp(c: string, evaluated: bool, id: string) returns (ok: bool)
      modifies this`followups
      ensures ok <==> Step(old(Now()), FollowUp(c, evaluated, id)).Some?
      ensures ok ==> Now() == Step(old(Now()), FollowUp(c, evaluated, id)).value
    {
      if c == "" || c in followups || id == "" { return false; }
      followups := followups[c := Followed(evaluated, id)];
      return true;
    }

    method AddStart(info: StartInfo)
      modifies this`starts
      ensures Now() == old(Now()).(starts := old(Now()).starts + multiset{info})
    {
      starts := starts + [info];
    }

    method AddCompletion(end: EndInfo)
      modifies this`completions
      ensures Now() == old(Now()).(completions := old(Now()).completions + multiset{end})
    {
      completions := completions + [end];
    }

    method ReadOther(line: Line) returns (ok: bool)
      requires !line.Decision?
      modifies this`starts, this`completions, this`followups, this`ignored
      ensures ok <==> Step(old(Now()), line).Some?
      ensures ok ==> Now() == Step(old(Now()), line).value
    {
      ok := true;
      match line {
        case NotJson => ignored := ignored + 1;
        case Irrelevant =>
        case Started(info) => AddStart(info);
        case Completed(end) => AddCompletion(end);
        case FollowUp(c, evaluated, id) => ok := ReadFollowUp(c, evaluated, id);
      }
    }

    method Read(line: Line) returns (ok: bool)
      requires Counted()
      modifies this
      ensures ok <==> Step(old(Now()), line).Some?
      ensures ok ==> Now() == Step(old(Now()), line).value && Counted()
    {
      match line {
        case Decision(c, at, body) => ok := ReadDecision(c, at, body);
        case _ => ok := ReadOther(line);
      }
    }

    // The pass over all lines.
    method ReadAll(lines: seq<Line>) returns (ok: bool)
      requires Now() == EMPTY && Counted()
      modifies this
      ensures ok <==> Scan(lines).Some?
      ensures ok ==> Now() == Scan(lines).value && Counted()
    {
      for i := 0 to |lines|
        invariant Scan(lines[..i]) == Some(Now()) && Counted()
      {
        assert lines[..i + 1][..i] == lines[..i];
        ok := Read(lines[i]);
        if !ok {
          FailureStays(Step, EMPTY, lines, i + 1);
          return;
        }
      }
      assert lines[..|lines|] == lines;
      ok := true;
    }

    // The check of the missed lags against the deadline of the run.
    method LagsExceed(maximum: real) returns (ok: bool)
      requires Counted() && Specified()
      ensures ok <==> forall c :: c in decisions && decisions[c].WasMissed? ==> decisions[c].lag > maximum
    {
      LagsOfReason(decisions, DecisionLagExceeded, multiset(decisionLags));
      LagsOfReason(decisions, InferenceLagExceeded, multiset(inferenceLags));
      LagsAreListed(decisions, multiset(decisionLags), multiset(inferenceLags), maximum);
      ok := AllAbove(decisionLags, maximum);
      if ok { ok := AllAbove(inferenceLags, maximum); }
    }

    // The loop over the recorded decisions: window, follow-ups and two-hour buckets.
    method CheckDecisions(start: real, end: real)
      returns (ok: bool, twoHour: multiset<(int, Kind)>, twoHourVenues: multiset<(int, set<Venue>)>)
      ensures ok <==> forall c :: c in decisions ==> DecisionOk(Now(), c, start, end)
      ensures ok ==> twoHour == Gather(decisions, TwoHourOf(start))
      ensures ok ==> twoHourVenues == Gather(decisions, TwoHourVenuesOf(start))
    {
      GatheringAdds(TwoHourOf(start));
      GatheringAdds(TwoHourVenuesOf(start));
      ok, twoHour, twoHourVenues :=
        CheckWith(start, end, GatheringOf(TwoHourOf(start)), GatheringOf(TwoHourVenuesOf(start)));
    }

    method CheckWith(start: real, end: real, ghost kinds: map<string, Decided> -> multiset<(int, Kind)>,
                     ghost venues: map<string, Decided> -> multiset<(int, set<Venue>)>)
      returns (ok: bool, twoHour: multiset<(int, Kind)>, twoHourVenues: multiset<(int, set<Venue>)>)
      requires Adds(kinds, TwoHourOf(start)) && Adds(venues, TwoHourVenuesOf(start))
      ensures ok <==> forall c :: c in decisions ==> DecisionOk(Now(), c, start, end)
      ensures ok ==> twoHour == kinds(decisions) && twoHourVenues == venues(decisions)
    {
      twoHour, twoHourVenues := multiset{}, multiset{};
      var left := decisions.Keys;
      ghost var done: map<string, Decided> := map[];
      while left != {}
        invariant left <= decisions.Keys && done.Keys == decisions.Keys - left
        invariant forall c :: c in done ==> done[c] == decisions[c] && DecisionOk(Now(), c, start, end)
        invariant twoHour == kinds(done) && twoHourVenues == venues(done)
        decreases |left|
      {
        var c :| c in left;
        left := left - {c};
        var d := decisions[c];
        assert kinds(done[c := d]) == kinds(done) + TwoHourOf(start)(d);
        assert venues(done[c := d]) == venues(done) + TwoHourVenuesOf(start)(d);
        if !(start <= d.at <= end) { return false, twoHour, twoHourVenues; }
        twoHour := twoHour + multiset{(Slot(start, d.at), KindOf(d))};
        if d.WasIneligible? {
          twoHourVenues := twoHourVenues + multiset{(Slot(start, d.at), AffectedBy(d))};
        }
        if d.Predicted? {
          if c !in followups || followups[c].predictionId != d.id { return false, twoHour, twoHourVenues; }
        } else if c in followups {
          return false, twoHour, twoHourVenues;
        }
        done := done[c := d];
      }
      assert done == decisions;
      ok := true;
    }

    method CountFollowUps() returns (f: multiset<bool>)
      ensures f == Gather(followups, EvaluatedOf)
    {
      forall fs: map<string, Followed>, c, d | c !in fs
        ensures Gather(fs[c := d], EvaluatedOf) == Gather(fs, EvaluatedOf) + EvaluatedOf(d)
      {
        GatherAdd(fs, EvaluatedOf, c, d);
      }
      f := CountWith((fs: map<string, Followed>) => Gather(fs, EvaluatedOf));
    }

    method CountWith(ghost total: map<string, Followed> -> multiset<bool>) returns (f: multiset<bool>)
      requires total(map[]) == multiset{}
      requires forall fs, c, d :: c !in fs ==> total(fs[c := d]) == total(fs) + EvaluatedOf(d)
      ensures f == total(followups)
    {
      f := multiset{};
      var left := followups.Keys;
      ghost var done: map<string, Followed> := map[];
      while left != {}
        invariant left <= followups.Keys && done.Keys == followups.Keys - left
        invariant forall c :: c in done ==> done[c] == followups[c]
        invariant f == total(done)
        decreases |left|
      {
        var c :| c in left;
        left := left - {c};
        assert total(done[c := followups[c]]) == total(done) + EvaluatedOf(followups[c]);
        f := f + multiset{followups[c].evaluated};
        done := done[c := followups[c]];
      }
      assert done == followups;
    }

    // The checks after the pass, in the order of the script.
    method Check(model: string, f: multiset<bool>)
      returns (ok: bool, twoHour: multiset<(int, Kind)>, twoHourVenues: multiset<(int, set<Venue>)>)
      requires Counted() && Specified()
      ensures ok <==> |starts| == 1 && |completions| == 1
                      && ReconciledWith(Now(), ticks, f, starts[0], completions[0], model)
      ensures ok ==> twoHour == Gather(decisions, TwoHourOf(starts[0].startedAt.value))
      ensures ok ==> twoHourVenues == Gather(decisions, TwoHourVenuesOf(starts[0].startedAt.value))
    {
      twoHour, twoHourVenues := multiset{}, multiset{};
      if |starts| != 1 || |completions| != 1 { return false, twoHour, twoHourVenues; }
      var info, end := starts[0], completions[0];
      if info.model != model || !info.policyOk || info.maximumLag.None? || info.maximumLag.value <= 0.0 {
        return false, twoHour, twoHourVenues;
      }
      var lagsOk := LagsExceed(info.maximumLag.value);
      if !lagsOk || info.startedAt.None? || end.completedAt.None? || end.completedAt.value <= info.startedAt.value {
        return false, twoHour, twoHourVenues;
      }
      ok, twoHour, twoHourVenues := CheckDecisions(info.startedAt.value, end.completedAt.value);
      ok := ok && followups.Keys <= decisions.Keys && decisions != map[] && CountsAgree(|decisions|, ticks, f, end);
    }

    // Everything after the pass.
    method Finish(model: string, f: multiset<bool>) returns (report: Option<Report>)
      requires Counted() && Specified() && f == Gather(followups, EvaluatedOf)
      ensures report.Some? <==>
                && |starts| == 1 && |completions| == 1
                && ReconciledWith(Now(), ticks, f, starts[0], completions[0], model)
      ensures report.Some? ==> report.value == ReportOf(Now(), starts[0], completions[0])
    {
      var ok, twoHour, twoHourVenues := Check(model, f);
      if !ok { return None; }
      report := Summarize(starts[0], completions[0], f, twoHour, twoHourVenues);
    }

    method Summarize(info: StartInfo, end: EndInfo, f: multiset<bool>,
                     twoHour: multiset<(int, Kind)>, twoHourVenues: multiset<(int, set<Venue>)>)
      returns (report: Option<Report>)
      requires Counted() && Specified()
      requires info.startedAt.Some? && end.deferrals.Some? && end.recovered.Some? && end.exhausted.Some?
      requires f == Gather(followups, EvaluatedOf)
      requires twoHour == Gather(decisions, TwoHourOf(info.startedAt.value))
      requires twoHourVenues == Gather(decisions, TwoHourVenuesOf(info.startedAt.value))
      ensures report == Some(ReportOf(Now(), info, end))
    {
      var decisionLag := Distribution.Distribute(decisionLags);
      var inferenceLag := Distribution.Distribute(inferenceLags);
      var exhaustedRetry := Distribution.Distribute(exhaustedRetries);
      Distribution.BagOfList(decisionLags);
      Distribution.BagOfList(inferenceLags);
      Distribution.BagOfList(exhaustedRetries);
      return Some(Report(|decisions|, f[true], f[false], ticks, decisionLag, inferenceLag, exhaustedRetry,
                         twoHour, twoHourVenues,
                         end.deferrals.value, end.recovered.value, end.exhausted.value, ignored));
    }
  }

  method AllAbove(values: seq<real>, bound: real) returns (ok: bool)
    ensures ok <==> forall v :: v in multiset(values) ==> v > bound
  {
    for i := 0 to |values|
      invariant forall k :: 0 <= k < i ==> values[k] > bound
    {
      if values[i] <= bound {
        assert values[i] in multiset(values);
        return false;
      }
    }
    ok := true;
  }

  lemma LagIsListed(ds: map<string, Decided>, reason: MissedReason, v: real)
    ensures v in Gather(ds, LagFor(reason)) <==>
              exists c :: c in ds && ds[c].WasMissed? && ds[c].reason == reason && ds[c].lag == v
  {
    GatherHas(ds, LagFor(reason), v);
    if v in Gather(ds, LagFor(reason)) {
      var c :| c in ds && v in LagFor(reason)(ds[c]);
      assert ds[c].WasMissed? && ds[c].reason == reason && ds[c].lag == v;
    }
    if c :| c in ds && ds[c].WasMissed? && ds[c].reason == reason && ds[c].lag == v {
      assert v in LagFor(reason)(ds[c]);
    }
  }

  lemma LagsOfReason(ds: map<string, Decided>, reason: MissedReason, bag: multiset<real>)
    requires bag == Gather(ds, LagFor(reason))
    ensures forall v :: v in bag <==>
              exists c :: c in ds && ds[c].WasMissed? && ds[c].reason == reason && ds[c].lag == v
  {
    forall v ensures v in bag <==> exists c :: c in ds && ds[c].WasMissed? && ds[c].reason == reason && ds[c].lag == v {
      LagIsListed(ds, reason, v);
    }
  }

  // The lists hold exactly the lags of the missed decisions.
  lemma LagsAreListed(ds: map<string, Decided>, dl: multiset<real>, il: multiset<real>, bound: real)
    requires forall v :: v in dl <==>
              exists c :: c in ds && ds[c].WasMissed? && ds[c].reason == DecisionLagExceeded && ds[c].lag == v
    requires forall v :: v in il <==>
              exists c :: c in ds && ds[c].WasMissed? && ds[c].reason == InferenceLagExceeded && ds[c].lag == v
    ensures (forall c :: c in ds && ds[c].WasMissed? ==> ds[c].lag > bound)
       <==> (forall v :: v in dl ==> v > bound) && (forall v :: v in il ==> v > bound)
  {
    forall c | c in ds && ds[c].WasMissed? ensures ds[c].lag in dl || ds[c].lag in il {
      if ds[c].reason.DecisionLagExceeded? { assert ds[c].lag in dl; } else { assert ds[c].lag in il; }
    }
  }

  // The audit of a file: it reports exactly when the evidence is accepted, and then
  // exactly what the specification says.
  method AuditLines(lines: seq<Line>, model: string)
    returns (report: Option<Report>, ghost acc: Acc, ghost info: StartInfo, ghost end: EndInfo)
    ensures report.Some? ==> Accepts(lines, model, acc, info, end) && report.value == ReportOf(acc, info, end)
    ensures report.None? ==> forall a, i, e :: !Accepts(lines, model, a, i, e)
  {
    var audit := new FunnelAudit();
    var ok := audit.ReadAll(lines);
    acc := EMPTY;
    if !ok { return None, acc, *, *; }
    var f := audit.CountFollowUps();
    report := audit.Finish(model, f);
    acc := audit.Now();
    Conclude(lines, model, acc, audit.ticks, f, audit.starts, audit.completions, report.Some?);
    if report.Some? {
      info, end := audit.starts[0], audit.completions[0];
    } else {
      info, end := *, *;
    }
  }

  lemma AcceptedPasses(lines: seq<Line>, model: string, a: Acc, i: StartInfo, e: EndInfo,
                       t: multiset<Tick>, f: multiset<bool>, starts: seq<StartInfo>, completions: seq<EndInfo>)
    requires Accepts(lines, model, a, i, e)
    requires a.starts == multiset(starts) && a.completions == multiset(completions)
    requires t == Ticks(a) && f == Gather(a.followups, EvaluatedOf)
    ensures starts == [i] && completions == [e] && ReconciledWith(a, t, f, i, e, model)
  {
    SingletonList(starts, i);
    SingletonList(completions, e);
  }

  lemma PassedAccepted(lines: seq<Line>, model: string, acc: Acc, t: multiset<Tick>, f: multiset<bool>,
                       starts: seq<StartInfo>, completions: seq<EndInfo>)
    requires Scan(lines) == Some(acc) && acc.starts == multiset(starts) && acc.completions == multiset(completions)
    requires t == Ticks(acc) && f == Gather(acc.followups, EvaluatedOf)
    requires |starts| == 1 && |completions| == 1 && ReconciledWith(acc, t, f, starts[0], completions[0], model)
    ensures Accepts(lines, model, acc, starts[0], completions[0])
  {
    assert starts == [starts[0]] && completions == [completions[0]];
  }

  lemma Conclude(lines: seq<Line>, model: string, acc: Acc, t: multiset<Tick>, f: multiset<bool>,
                 starts: seq<StartInfo>, completions: seq<EndInfo>, passed: bool)
    requires Scan(lines) == Some(acc) && acc.starts == multiset(starts) && acc.completions == multiset(completions)
    requires t == Ticks(acc) && f == Gather(acc.followups, EvaluatedOf)
    requires passed <==>
              |starts| == 1 && |completions| == 1 && ReconciledWith(acc, t, f, starts[0], completions[0], model)
    ensures passed ==> Accepts(lines, model, acc, starts[0], completions[0])
    ensures !passed ==> forall a, i, e :: !Accepts(lines, model, a, i, e)
  {
    if passed {
      PassedAccepted(lines, model, acc, t, f, starts, completions);
    } else if a, i, e :| Accepts(lines, model, a, i, e) {
      AcceptedPasses(lines, model, a, i, e, t, f, starts, completions);
      assert false;
    }
  }

  lemma SingletonList<T>(s: seq<T>, x: T)
    requires multiset(s) == multiset{x}
    ensures s == [x]
  {
    assert |s| == |multiset(s)| == 1;
    assert s[0] in multiset(s);
  }
}
