// Sampling the long transactions of a database, and what the sampled pids say about
// whether the window ended clean.

module BlockerSampling {
  import opened Common

  datatype QueryClass = DedupeInsert | RawInsert | StateUpsert | OtherQuery(text: string)

  const WRITER_CLASSES := {DedupeInsert, RawInsert, StateUpsert}

  // What an entry counts of a row beside its query class, and what it only remembers.
  datatype Tag =
    State(text: string) | Wait(text: string) | Family(text: string) | Service(text: string) | Lock(text: string)
  datatype Name =
    Fingerprint(text: string) | Application(text: string) | User(text: string) | Xid(text: string) | Xmin(text: string)

  // One long transaction in one sample. Its age has been clamped to zero or more; the other
  // two ages may be missing. A lock mode is tagged as often as it is held.
  datatype Row = Row(pid: int, age: real, queryAge: Option<real>, stateAge: Option<real>, query: QueryClass,
                     tags: multiset<Tag>, names: set<Name>)

  // A row together with the number of the sample it was in.
  datatype Sighting = Sighting(at: nat, row: Row)

  datatype Observation = Observation(
    first: nat, last: nat, seen: nat, age: real, queryAge: Option<real>, stateAge: Option<real>,
    queries: multiset<QueryClass>, tags: multiset<Tag>, names: set<Name>)

  datatype Report = Report(
    persistent: set<int>, cleared: set<int>, appeared: set<int>, observations: map<int, Observation>,
    writers: set<int>, minimum: nat, maximum: nat, nonzero: nat)

  // At least one sample is taken.
  type Sampling = s: seq<seq<Row>> | |s| > 0 witness [[]]

  function Pids(rows: seq<Row>): set<int> {
    set row | row in rows :: row.pid
  }

  function First(samples: Sampling): set<int> {
    Pids(samples[0])
  }

  function Last(samples: Sampling): set<int> {
    Pids(samples[|samples| - 1])
  }

  function Stamp(rows: seq<Row>, at: nat): (s: seq<Sighting>)
    ensures |s| == |rows| && forall i :: 0 <= i < |s| ==> s[i] == Sighting(at, rows[i])
  {
    seq(|rows|, i requires 0 <= i < |rows| => Sighting(at, rows[i]))
  }

  // Every row of every sample, in the order they were read.
  function Sightings(samples: seq<seq<Row>>): seq<Sighting> {
    if samples == [] then []
    else Sightings(samples[..|samples| - 1]) + Stamp(samples[|samples| - 1], |samples| - 1)
  }

  function OfPid(s: seq<Sighting>, pid: int): seq<Sighting> {
    if s == [] then []
    else OfPid(s[..|s| - 1], pid) + if s[|s| - 1].row.pid == pid then [s[|s| - 1]] else []
  }

  function Oldest(s: seq<Sighting>): real {
    if s == [] then 0.0
    else
      var older := Oldest(s[..|s| - 1]);
      if s[|s| - 1].row.age > older then s[|s| - 1].row.age else older
  }

  function Queries(s: seq<Sighting>): multiset<QueryClass> {
    if s == [] then multiset{} else Queries(s[..|s| - 1]) + multiset{s[|s| - 1].row.query}
  }

  function Tags(s: seq<Sighting>): multiset<Tag> {
    if s == [] then multiset{} else Tags(s[..|s| - 1]) + s[|s| - 1].row.tags
  }

  function Names(s: seq<Sighting>): set<Name> {
    set x, n | x in s && n in x.row.names :: n
  }

  // The greatest of the ages that are there, and at least zero; none if none is there.
  ghost predicate GreatestOf(age: Option<real>, ages: seq<Option<real>>) {
    if age.None? then forall a :: a in ages ==> a.None?
    else
      && (exists a :: a in ages && a.Some?) && age.value >= 0.0
      && (forall a :: a in ages && a.Some? ==> a.value <= age.value)
      && (age.value > 0.0 ==> age in ages)
  }

  function QueryAges(s: seq<Sighting>): (ages: seq<Option<real>>)
    ensures |ages| == |s|
  {
    seq(|s|, i requires 0 <= i < |s| => s[i].row.queryAge)
  }

  function StateAges(s: seq<Sighting>): (ages: seq<Option<real>>)
    ensures |ages| == |s|
  {
    seq(|s|, i requires 0 <= i < |s| => s[i].row.stateAge)
  }

  ghost predicate Summarises(o: Observation, s: seq<Sighting>) {
    && s != []
    && o.first == s[0].at && o.last == s[|s| - 1].at && o.seen == |s|
    && o.age == Oldest(s) && GreatestOf(o.queryAge, QueryAges(s)) && GreatestOf(o.stateAge, StateAges(s))
    && o.queries == Queries(s) && o.tags == Tags(s) && o.names == Names(s)
  }

  ghost predicate ObservesPid(observations: map<int, Observation>, s: seq<Sighting>, pid: int) {
    if pid in observations then Summarises(observations[pid], OfPid(s, pid)) else OfPid(s, pid) == []
  }

  // One entry for each pid sighted, holding the summary of all its sightings.
  ghost predicate Observes(observations: map<int, Observation>, s: seq<Sighting>) {
    forall pid :: ObservesPid(observations, s, pid)
  }

  predicate WritesLike(o: Observation) {
    exists c :: c in WRITER_CLASSES && c in o.queries
  }

  function NonEmpty(samples: seq<seq<Row>>): nat {
    if samples == [] then 0
    else NonEmpty(samples[..|samples| - 1]) + if samples[|samples| - 1] != [] then 1 else 0
  }

  ghost predicate Counts(r: Report, samples: Sampling) {
    && (forall i :: 0 <= i < |samples| ==> r.minimum <= |samples[i]| <= r.maximum)
    && (exists i :: 0 <= i < |samples| && |samples[i]| == r.minimum)
    && (exists i :: 0 <= i < |samples| && |samples[i]| == r.maximum)
    && r.nonzero == NonEmpty(samples)
  }

  ghost predicate Reports(r: Report, samples: Sampling) {
    && r.persistent == First(samples) * Last(samples)
    && r.cleared == First(samples) - Last(samples)
    && r.appeared == Last(samples) - First(samples)
    && Observes(r.observations, Sightings(samples))
    && r.writers == (set pid | pid in r.persistent && pid in r.observations && WritesLike(r.observations[pid]))
    && Counts(r, samples)
  }

  // The rollout's test of a bounded window, read off the report alone.
  predicate EndsClean(r: Report) {
    r.persistent == {} && r.appeared == {} && |r.persistent| == 0 && !(|r.writers| > 0)
  }

  // ----- Sightings

  lemma {:induction false} OfPidConcat(a: seq<Sighting>, b: seq<Sighting>, pid: int)
    ensures OfPid(a + b, pid) == OfPid(a, pid) + OfPid(b, pid)
  {
    if b == [] {
      assert a + b == a;
    } else {
      assert (a + b)[..|a + b| - 1] == a + b[..|b| - 1];
      OfPidConcat(a, b[..|b| - 1], pid);
    }
  }

  lemma OfOne(x: Sighting, pid: int)
    ensures OfPid([x], pid) == if x.row.pid == pid then [x] else []
  {
    assert [x][..0] == [];
  }

  // Sightings of a pid are made of rows with that pid.
  lemma {:induction false} OfPidIn(s: seq<Sighting>, pid: int, x: Sighting)
    ensures x in OfPid(s, pid) <==> x in s && x.row.pid == pid
  {
    if s != [] {
      OfPidIn(s[..|s| - 1], pid, x);
      assert s == s[..|s| - 1] + [s[|s| - 1]];
    }
  }

  lemma {:induction false} SightedIn(samples: seq<seq<Row>>, x: Sighting)
    ensures x in Sightings(samples) <==> x.at < |samples| && x.row in samples[x.at]
  {
    if samples != [] {
      var n := |samples| - 1;
      SightedIn(samples[..n], x);
      if x.at == n && x.row in samples[n] {
        var i :| 0 <= i < |samples[n]| && samples[n][i] == x.row;
        assert Stamp(samples[n], n)[i] == x;
      }
    }
  }

  // The observations keep one entry for exactly the pids that were in some sample.
  lemma ObservedIffSampled(r: Report, samples: Sampling, pid: int)
    requires Reports(r, samples)
    ensures pid in r.observations <==> exists i :: 0 <= i < |samples| && pid in Pids(samples[i])
  {
    var s := Sightings(samples);
    assert ObservesPid(r.observations, s, pid);
    if pid in r.observations {
      var x := OfPid(s, pid)[0];
      OfPidIn(s, pid, x);
      SightedIn(samples, x);
      assert pid in Pids(samples[x.at]);
    }
    if i :| 0 <= i < |samples| && pid in Pids(samples[i]) {
      var row :| row in samples[i] && row.pid == pid;
      SightedIn(samples, Sighting(i, row));
      OfPidIn(s, pid, Sighting(i, row));
    }
  }

  lemma {:induction false} OneClassEach(s: seq<Sighting>)
    ensures |Queries(s)| == |s|
  {
    if s != [] { OneClassEach(s[..|s| - 1]); }
  }

  // The query classes of an entry add up to the rows it was seen in.
  lemma ClassesAddUp(r: Report, samples: Sampling, pid: int)
    requires Reports(r, samples) && pid in r.observations
    ensures |r.observations[pid].queries| == r.observations[pid].seen
  {
    assert ObservesPid(r.observations, Sightings(samples), pid);
    OneClassEach(OfPid(Sightings(samples), pid));
  }

  // ----- The window's end

  // A window ends clean exactly when its last sample held no long transaction, whatever
  // the samples before it held: the first sample's pids only split the last one's.
  lemma CleanIffLastSampleEmpty(r: Report, samples: Sampling)
    requires Reports(r, samples)
    ensures EndsClean(r) <==> samples[|samples| - 1] == []
  {
    var last := samples[|samples| - 1];
    assert Last(samples) == r.persistent + r.appeared;
    assert last == [] || last[0].pid in Last(samples);
    assert r.persistent == {} ==> r.writers == {};
  }

  // ----- Persistence

  lemma {:induction false} OncePerSample(rows: seq<Row>, at: nat, pid: int)
    requires forall i, j :: 0 <= i < j < |rows| ==> rows[i].pid != rows[j].pid
    ensures |OfPid(Stamp(rows, at), pid)| == if pid in Pids(rows) then 1 else 0
  {
    if rows != [] {
      var n := |rows| - 1;
      var front := rows[..n];
      OncePerSample(front, at, pid);
      assert Stamp(rows, at)[..n] == Stamp(front, at);
      assert rows == front + [rows[n]];
      if rows[n].pid == pid {
        assert pid !in Pids(front);
      }
    }
  }

  function Times(samples: seq<seq<Row>>, pid: int): nat {
    if samples == [] then 0
    else Times(samples[..|samples| - 1], pid) + if pid in Pids(samples[|samples| - 1]) then 1 else 0
  }

  ghost predicate OneRowPerPid(samples: seq<seq<Row>>) {
    forall k, i, j :: 0 <= k < |samples| && 0 <= i < j < |samples[k]| ==> samples[k][i].pid != samples[k][j].pid
  }

  lemma {:induction false} SeenOncePerSample(samples: seq<seq<Row>>, pid: int)
    requires OneRowPerPid(samples)
    ensures |OfPid(Sightings(samples), pid)| == Times(samples, pid)
  {
    if samples != [] {
      var n := |samples| - 1;
      SeenOncePerSample(samples[..n], pid);
      OncePerSample(samples[n], n, pid);
      OfPidConcat(Sightings(samples[..n]), Stamp(samples[n], n), pid);
    }
  }

  lemma {:induction false} TimesIsFull(samples: seq<seq<Row>>, pid: int)
    ensures Times(samples, pid) <= |samples|
    ensures Times(samples, pid) == |samples| <==> forall i :: 0 <= i < |samples| ==> pid in Pids(samples[i])
  {
    if samples != [] {
      var n := |samples| - 1;
      TimesIsFull(samples[..n], pid);
      forall i | 0 <= i < n ensures samples[..n][i] == samples[i] {}
      if Times(samples, pid) == |samples| {
        forall i | 0 <= i < |samples| ensures pid in Pids(samples[i]) {
          if i < n { assert pid in Pids(samples[..n][i]); }
        }
      }
    }
  }

  // A sample fraction of one means the pid was in every sample, so it is persistent. The
  // converse fails: the report calls persistent what was merely there at both ends.
  lemma FullFractionIsPersistent(r: Report, samples: Sampling, pid: int)
    requires Reports(r, samples) && OneRowPerPid(samples) && pid in r.observations
    ensures r.observations[pid].seen <= |samples|
    ensures r.observations[pid].seen == |samples| <==> forall i :: 0 <= i < |samples| ==> pid in Pids(samples[i])
    ensures r.observations[pid].seen == |samples| ==> pid in r.persistent
  {
    assert ObservesPid(r.observations, Sightings(samples), pid);
    SeenOncePerSample(samples, pid);
    TimesIsFull(samples, pid);
  }

  // ----- The sampling loop

  lemma ObserveOne(observations: map<int, Observation>, s: seq<Sighting>, x: Sighting, entry: Observation)
    requires Observes(observations, s)
    requires Summarises(entry, OfPid(s, x.row.pid) + [x])
    ensures Observes(observations[x.row.pid := entry], s + [x])
  {
    var updated := observations[x.row.pid := entry];
    forall pid ensures ObservesPid(updated, s + [x], pid) {
      OfPidConcat(s, [x], pid);
      OfOne(x, pid);
      assert ObservesPid(observations, s, pid);
      assert OfPid(s, pid) + [] == OfPid(s, pid);
    }
  }

  // The greater of two ages; a missing one is none, and what is there counts from zero.
  function Later(age: Option<real>, now: Option<real>): (later: Option<real>)
    ensures later.None? <==> age.None? && now.None?
  {
    if now.None? then age
    else
      var before := if age.Some? then age.value else 0.0;
      Some(if now.value > before then now.value else before)
  }

  lemma LaterIsGreatest(age: Option<real>, ages: seq<Option<real>>, now: Option<real>)
    requires GreatestOf(age, ages)
    ensures GreatestOf(Later(age, now), ages + [now])
  {
    var more := ages + [now];
    assert more[|ages|] == now && now in more;
    assert forall a :: a in ages ==> a in more;
  }

  lemma {:induction false} SummaryGrows(s: seq<Sighting>, x: Sighting)
    ensures Oldest(s + [x]) == if x.row.age > Oldest(s) then x.row.age else Oldest(s)
    ensures Queries(s + [x]) == Queries(s) + multiset{x.row.query} && Tags(s + [x]) == Tags(s) + x.row.tags
    ensures QueryAges(s + [x]) == QueryAges(s) + [x.row.queryAge]
    ensures StateAges(s + [x]) == StateAges(s) + [x.row.stateAge]
    ensures Names(s + [x]) == Names(s) + x.row.names
  {
    assert (s + [x])[..|s|] == s;
    forall n | n in Names(s) + x.row.names ensures n in Names(s + [x]) {
      if n in x.row.names {
        assert x in s + [x];
      } else {
        var y :| y in s && n in y.row.names;
        assert y in s + [x];
      }
    }
  }

  // An entry with one more row.
  function Add(entry: Observation, at: nat, row: Row): Observation {
    Observation(
      entry.first, at, entry.seen + 1, if row.age > entry.age then row.age else entry.age,
      Later(entry.queryAge, row.queryAge), Later(entry.stateAge, row.stateAge),
      entry.queries + multiset{row.query}, entry.tags + row.tags, entry.names + row.names)
  }

  lemma AddSummarises(entry: Observation, s: seq<Sighting>, at: nat, row: Row)
    requires Summarises(entry, s)
    ensures Summarises(Add(entry, at, row), s + [Sighting(at, row)])
  {
    SummaryGrows(s, Sighting(at, row));
    LaterIsGreatest(entry.queryAge, QueryAges(s), row.queryAge);
    LaterIsGreatest(entry.stateAge, StateAges(s), row.stateAge);
  }

  lemma OpenSummarises(at: nat, row: Row)
    ensures Summarises(Add(Observation(at, at, 0, 0.0, None, None, multiset{}, multiset{}, {}), at, row),
                       [Sighting(at, row)])
  {
    var x := Sighting(at, row);
    SummaryGrows([], x);
    assert [] + [x] == [x];
    LaterIsGreatest(None, [], row.queryAge);
    LaterIsGreatest(None, [], row.stateAge);
    assert QueryAges([]) == [] && StateAges([]) == [];
    assert [] + [row.queryAge] == [row.queryAge] && [] + [row.stateAge] == [row.stateAge];
  }

  // Adds one row to its pid's entry, opening the entry at the pid's first row.
  method Observe(observations: map<int, Observation>, ghost s: seq<Sighting>, at: nat, row: Row)
    returns (updated: map<int, Observation>)
    requires Observes(observations, s)
    ensures Observes(updated, s + [Sighting(at, row)])
  {
    assert ObservesPid(observations, s, row.pid);
    ghost var before := OfPid(s, row.pid);
    var entry := Observation(at, at, 0, 0.0, None, None, multiset{}, multiset{}, {});
    if row.pid in observations {
      entry := observations[row.pid];
      AddSummarises(entry, before, at, row);
    } else {
      OpenSummarises(at, row);
      assert before + [Sighting(at, row)] == [Sighting(at, row)];
    }
    ObserveOne(observations, s, Sighting(at, row), Add(entry, at, row));
    updated := observations[row.pid := Add(entry, at, row)];
  }

  method ObserveSample(observations: map<int, Observation>, ghost s: seq<Sighting>, at: nat, rows: seq<Row>)
    returns (updated: map<int, Observation>)
    requires Observes(observations, s)
    ensures Observes(updated, s + Stamp(rows, at))
  {
    updated := observations;
    assert s + Stamp(rows[..0], at) == s;
    for i := 0 to |rows|
      invariant Observes(updated, s + Stamp(rows[..i], at))
    {
      updated := Observe(updated, s + Stamp(rows[..i], at), at, rows[i]);
      assert s + Stamp(rows[..i], at) + [Sighting(at, rows[i])] == s + Stamp(rows[..i + 1], at);
    }
    assert rows[..|rows|] == rows;
  }

  method CountSamples(samples: Sampling) returns (minimum: nat, maximum: nat, nonzero: nat)
    ensures forall i :: 0 <= i < |samples| ==> minimum <= |samples[i]| <= maximum
    ensures exists i :: 0 <= i < |samples| && |samples[i]| == minimum
    ensures exists i :: 0 <= i < |samples| && |samples[i]| == maximum
    ensures nonzero == NonEmpty(samples)
  {
    minimum, maximum := |samples[0]|, |samples[0]|;
    nonzero := 0;
    for i := 0 to |samples|
      invariant forall k :: 0 <= k < i ==> minimum <= |samples[k]| <= maximum
      invariant exists k :: 0 <= k < |samples| && |samples[k]| == minimum
      invariant exists k :: 0 <= k < |samples| && |samples[k]| == maximum
      invariant nonzero == NonEmpty(samples[..i])
    {
      if |samples[i]| < minimum { minimum := |samples[i]|; }
      if |samples[i]| > maximum { maximum := |samples[i]|; }
      if |samples[i]| > 0 { nonzero := nonzero + 1; }
      assert samples[..i + 1][..i] == samples[..i];
    }
    assert samples[..|samples|] == samples;
  }

  method BuildReport(samples: Sampling) returns (r: Report)
    ensures Reports(r, samples)
  {
    var observations: map<int, Observation> := map[];
    var first: set<int>, last: set<int> := {}, {};
    for i := 0 to |samples|
      invariant Observes(observations, Sightings(samples[..i]))
      invariant i > 0 ==> first == First(samples)
      invariant i == |samples| ==> last == Last(samples)
    {
      if i == 0 { first := Pids(samples[i]); }
      if i == |samples| - 1 { last := Pids(samples[i]); }
      observations := ObserveSample(observations, Sightings(samples[..i]), i, samples[i]);
      assert samples[..i + 1][..i] == samples[..i];
    }
    assert samples[..|samples|] == samples;
    var persistent := first * last;
    var writers := set pid | pid in persistent && pid in observations && WritesLike(observations[pid]);
    var minimum, maximum, nonzero := CountSamples(samples);
    r := Report(persistent, first - last, last - first, observations, writers, minimum, maximum, nonzero);
  }
}
