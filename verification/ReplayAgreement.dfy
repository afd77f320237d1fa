// Receiver and source together: when may the source trust that a redelivered
// result is the one it recorded?

module ReplayAgreement {
  import opened Common
  import opened ResultRecord
  import Runs
  import R = ReceiverProtocol
  import RS = ReceiverSafety
  import RT = ReceiverTheorems
  import RO = ReceiverOrigins
  import RD = ReceiverDirect
  import RU = ReceiverStartup
  import S = SourceProtocol
  import SS = SourceSafety
  import ST = SourceTheorems

  // p is an approval result published in the receiver state r.
  ghost predicate ApprovalResult(r: R.State, p: R.Publication) {
    && p in r.history.published && p.FromDelivery?
    && p.delivery < |r.history.deliveries| && r.history.deliveries[p.delivery].Approval?
  }

  // Two results of one approval identity pass the source's replay check exactly
  // when the two approval messages were created at the same instant.
  lemma ReplayPassesIffSameCreation(run: seq<R.State>, i: nat, p: R.Publication, q: R.Publication, needs: bool)
    requires R.IsRun(run) && i < |run| && ApprovalResult(run[i], p) && ApprovalResult(run[i], q)
    requires R.IdOf(run[i].history.deliveries[p.delivery]) == R.IdOf(run[i].history.deliveries[q.delivery])
    ensures S.SameResult(S.ReceiptOf(p.record, needs), q.record)
       <==> run[i].history.deliveries[p.delivery].createdAt == run[i].history.deliveries[q.delivery].createdAt
  {
    RT.ApprovalResultsHashAlike(run, i, p, q);
    ST.SameResultIsSameHash(p.record, needs, q.record);
  }

  // What a decision's hash covers besides the creation time of the message.
  function Undated(r: Record): Record { Stable(r) - {ApprovalCreatedAt} }

  // Two results of any approvals, in any session: they pass it exactly when the messages were
  // created at the same instant and the decisions on file are alike. So it is for an approval
  // of another order that a one-shot root answers with the result of the first.
  lemma ReplayPassesIffSameDecision(run: seq<R.State>, i: nat, p: R.Publication, q: R.Publication, needs: bool)
    requires R.IsRun(run) && i < |run| && ApprovalResult(run[i], p) && ApprovalResult(run[i], q)
    ensures var r := run[i];
            var m, n := r.history.deliveries[p.delivery], r.history.deliveries[q.delivery];
            && R.IdOf(m) in r.disk.decisions && R.IdOf(n) in r.disk.decisions
            && (S.SameResult(S.ReceiptOf(p.record, needs), q.record)
                <==> m.createdAt == n.createdAt
                     && Undated(r.disk.decisions[R.IdOf(m)]) == Undated(r.disk.decisions[R.IdOf(n)]))
  {
    RT.PublishedAfterDurable(run, i, p);
    RT.PublishedAfterDurable(run, i, q);
    ST.SameResultIsSameHash(p.record, needs, q.record);
    var r := run[i];
    var m, n := r.history.deliveries[p.delivery], r.history.deliveries[q.delivery];
    DatedAlike(Stable(r.disk.decisions[R.IdOf(m)]), m.createdAt, Stable(r.disk.decisions[R.IdOf(n)]), n.createdAt);
  }

  lemma DatedAlike(d: Record, at: int, e: Record, at': int)
    ensures d[ApprovalCreatedAt := Number(at)] == e[ApprovalCreatedAt := Number(at')]
       <==> at == at' && d - {ApprovalCreatedAt} == e - {ApprovalCreatedAt}
  {
    var x, y := d[ApprovalCreatedAt := Number(at)], e[ApprovalCreatedAt := Number(at')];
    assert x[ApprovalCreatedAt] == Number(at) && y[ApprovalCreatedAt] == Number(at');
    assert x - {ApprovalCreatedAt} == d - {ApprovalCreatedAt} && y - {ApprovalCreatedAt} == e - {ApprovalCreatedAt};
    if at == at' && d - {ApprovalCreatedAt} == e - {ApprovalCreatedAt} {
      assert x == (d - {ApprovalCreatedAt})[ApprovalCreatedAt := Number(at)];
      assert y == (e - {ApprovalCreatedAt})[ApprovalCreatedAt := Number(at')];
    }
  }

  // Two direct results published under one marker after its result was settled pass it exactly
  // when the messages were created at the same instant and the retries counted are the same.
  lemma DirectReplayPassesIff(run: seq<R.State>, i: nat, j: nat, k: R.Key, stored: Record,
                              p: R.Publication, q: R.Publication, needs: bool)
    requires R.IsRun(run) && i <= j < |run| && RD.SettledAs(run[i], k, stored)
    requires RD.PublishedSince(run, i, j, p, k, stored) && RD.PublishedSince(run, i, j, q, k, stored)
    ensures PreAttemptRetryCount in p.record && PreAttemptRetryCount in q.record
    ensures S.SameResult(S.ReceiptOf(p.record, needs), q.record)
       <==> && run[j].history.deliveries[p.delivery].createdAt == run[j].history.deliveries[q.delivery].createdAt
            && p.record[PreAttemptRetryCount] == q.record[PreAttemptRetryCount]
  {
    RD.DirectResultsHashAlike(run, i, j, k, stored, p, q);
    ST.SameResultIsSameHash(p.record, needs, q.record);
  }

  // A result republished at start-up and a result of a delivery never pass it.
  lemma StartupReplayFails(run: seq<R.State>, i: nat, p: R.Publication, q: R.Publication, needs: bool)
    requires R.IsRun(run) && i < |run| && p in run[i].history.published && q in run[i].history.published
    requires p.FromStartup? && q.FromDelivery?
    ensures !S.SameResult(S.ReceiptOf(p.record, needs), q.record)
    ensures !S.SameResult(S.ReceiptOf(q.record, needs), p.record)
  {
    RT.StartupNeverHashesLikeDelivery(run, i, p, q);
    ST.SameResultIsSameHash(p.record, needs, q.record);
    ST.SameResultIsSameHash(q.record, needs, p.record);
  }

  // Two results republished at start-up for one order always pass it.
  lemma StartupReplayPasses(run: seq<R.State>, i: nat, p: R.Publication, q: R.Publication, b: Binding, needs: bool)
    requires R.IsRun(run) && i < |run|
    requires p in run[i].history.published && q in run[i].history.published && p.FromStartup? && q.FromStartup?
    requires Names(p.record, b) && Names(q.record, b)
    ensures S.SameResult(S.ReceiptOf(p.record, needs), q.record)
  {
    RU.StartupRepublishesOnePerOrder(run, i, p, q, b);
    ST.SameResultIsSameHash(p.record, needs, q.record);
  }

  // ----- A source fed by such a receiver

  // The source publishes one approval message per order, however often it is delivered.
  ghost predicate OneMessagePerOrder(r: R.State) {
    forall d, e :: 0 <= d < |r.history.deliveries| && 0 <= e < |r.history.deliveries|
                   && r.history.deliveries[d].Approval? && r.history.deliveries[e].Approval?
                   && r.history.deliveries[d].binding == r.history.deliveries[e].binding
                   ==> r.history.deliveries[d] == r.history.deliveries[e]
  }

  // A result that names b: published for an approval of b or, if those count, republished at
  // start-up. In a continuous session every result of a delivery names its own order, but in a
  // one-shot root an approval of another order can be answered with the result of b.
  ghost predicate Result(r: R.State, p: R.Publication, b: Binding, startups: bool) {
    && Names(p.record, b)
    && ((ApprovalResult(r, p) && (r.cfg.continuous || r.history.deliveries[p.delivery].binding == b))
        || (startups && p in r.history.published && p.FromStartup?))
  }

  ghost predicate Comes(r: R.State, b: Binding, record: Record, startups: bool) {
    exists p :: Result(r, p, b, startups) && p.record == record
  }

  ghost predicate FedThreads(r: R.State, s: S.State, startups: bool) {
    forall t :: t in s.threads ==> Comes(r, s.threads[t].binding, s.threads[t].result, startups)
  }

  ghost predicate FiledFrom(r: R.State, s: S.State, b: Binding, startups: bool)
    requires b in s.disk.results
  {
    exists record :: Comes(r, b, record, startups) && s.disk.results[b] == S.ReceiptOf(record, s.disk.results[b].needs)
  }

  ghost predicate FedReceipts(r: R.State, s: S.State, startups: bool) {
    forall b :: b in s.disk.results ==> FiledFrom(r, s, b, startups)
  }

  lemma FedStep(r: R.State, s: S.State, s': S.State, startups: bool)
    requires FedThreads(r, s, startups) && FedReceipts(r, s, startups) && S.Step(s, s')
    ensures FedReceipts(r, s', startups)
  {
    ST.StepKeeps(s, s');
    forall b | b in s'.disk.results ensures FiledFrom(r, s', b, startups) {
      if b in s.disk.results {
        assert FiledFrom(r, s, b, startups);
        var record :|
          Comes(r, b, record, startups) && s.disk.results[b] == S.ReceiptOf(record, s.disk.results[b].needs);
        assert Comes(r, b, record, startups);
      } else {
        assert SS.WrittenByCallback(s, s', b);
        var t :| t in s.threads && s.threads[t].binding == b
                 && s'.disk.results[b] == S.ReceiptOf(s.threads[t].result, s'.disk.results[b].needs);
        assert Comes(r, b, s.threads[t].result, startups);
      }
    }
  }

  lemma {:induction false} RunFed(r: R.State, run: seq<S.State>, j: nat, startups: bool)
    requires S.IsRun(run) && j < |run| && forall k :: 0 <= k <= j ==> FedThreads(r, run[k], startups)
    ensures FedReceipts(r, run[j], startups)
  {
    if j > 0 {
      RunFed(r, run, j - 1, startups);
      assert Runs.StepAt(S.Step, run, j - 1);
      FedStep(r, run[j - 1], run[j], startups);
    }
  }

  lemma SameOrderSameMessage(run: seq<R.State>, i: nat, b: Binding, p: R.Publication, q: R.Publication)
    requires R.IsRun(run) && i < |run| && OneMessagePerOrder(run[i])
    requires Result(run[i], p, b, true) && Result(run[i], q, b, true) && p.FromDelivery? && q.FromDelivery?
    ensures run[i].history.deliveries[p.delivery] == run[i].history.deliveries[q.delivery]
  {
    RT.RunGrows(run, 0, i);
    if run[0].cfg.continuous {
      RO.ContinuousResultsNameTheirOrder(run, i, p);
      RO.ContinuousResultsNameTheirOrder(run, i, q);
    }
    assert run[i].history.deliveries[p.delivery].binding == b == run[i].history.deliveries[q.delivery].binding;
  }

  // Whether a published record was republished at start-up shows in the record.
  lemma RepublishedShows(run: seq<R.State>, i: nat, p: R.Publication)
    requires R.IsRun(run) && i < |run| && p in run[i].history.published
    ensures p.FromStartup? <==> PublishPending(p.record)
    ensures PublishPending(Stable(p.record)) == PublishPending(p.record)
  {
    RT.RunSafe(run, i);
    assert RS.PublicationOk(run[i], p);
  }

  // Two results for one order pass the check exactly when both or neither come from start-up.
  lemma ResultsAgreeIff(run: seq<R.State>, i: nat, b: Binding, p: R.Publication, q: R.Publication, needs: bool)
    requires R.IsRun(run) && i < |run| && OneMessagePerOrder(run[i])
    requires Result(run[i], p, b, true) && Result(run[i], q, b, true)
    ensures S.SameResult(S.ReceiptOf(p.record, needs), q.record) <==> (p.FromStartup? <==> q.FromStartup?)
  {
    if p.FromStartup? && q.FromStartup? {
      StartupReplayPasses(run, i, p, q, b, needs);
    } else if p.FromStartup? {
      StartupReplayFails(run, i, p, q, needs);
    } else if q.FromStartup? {
      StartupReplayFails(run, i, q, p, needs);
    } else {
      SameOrderSameMessage(run, i, b, p, q);
      ReplayPassesIffSameCreation(run, i, p, q, needs);
    }
  }

  // The central agreement, over all runs of both programs: with one approval message per
  // order, however often it is delivered and wherever either process dies, the source's check
  // for a changed replay fires exactly when one of the two results was republished by the
  // receiver's start-up recovery and the other was not.
  lemma ReplayCheckFiresIff(rrun: seq<R.State>, i: nat, run: seq<S.State>, j: nat, t: nat)
    requires R.IsRun(rrun) && i < |rrun| && OneMessagePerOrder(rrun[i])
    requires S.IsRun(run) && j < |run| && forall k :: 0 <= k <= j ==> FedThreads(rrun[i], run[k], true)
    requires t in run[j].threads && run[j].threads[t].binding in run[j].disk.results
    ensures var filed := run[j].disk.results[run[j].threads[t].binding];
            !S.SameResult(filed, run[j].threads[t].result)
            <==> PublishPending(filed.hash) != PublishPending(run[j].threads[t].result)
  {
    var r, s := rrun[i], run[j];
    var b := s.threads[t].binding;
    RunFed(r, run, j, true);
    assert Comes(r, b, s.threads[t].result, true) && FiledFrom(r, s, b, true);
    var record :| Comes(r, b, record, true) && s.disk.results[b] == S.ReceiptOf(record, s.disk.results[b].needs);
    var p :| Result(r, p, b, true) && p.record == record;
    var q :| Result(r, q, b, true) && q.record == s.threads[t].result;
    RepublishedShows(rrun, i, p);
    RepublishedShows(rrun, i, q);
    ResultsAgreeIff(rrun, i, b, p, q, s.disk.results[b].needs);
  }

  // So it never fires on results that all come from deliveries.
  lemma ReplayCheckNeverFires(rrun: seq<R.State>, i: nat, run: seq<S.State>, j: nat, t: nat)
    requires R.IsRun(rrun) && i < |rrun| && OneMessagePerOrder(rrun[i])
    requires S.IsRun(run) && j < |run| && forall k :: 0 <= k <= j ==> FedThreads(rrun[i], run[k], false)
    requires t in run[j].threads && run[j].threads[t].binding in run[j].disk.results
    ensures S.SameResult(run[j].disk.results[run[j].threads[t].binding], run[j].threads[t].result)
  {
    var r, s := rrun[i], run[j];
    var b := s.threads[t].binding;
    RunFed(r, run, j, false);
    assert Comes(r, b, s.threads[t].result, false) && FiledFrom(r, s, b, false);
    var record :| Comes(r, b, record, false) && s.disk.results[b] == S.ReceiptOf(record, s.disk.results[b].needs);
    var p :| Result(r, p, b, false) && p.record == record;
    var q :| Result(r, q, b, false) && q.record == s.threads[t].result;
    ResultsAgreeIff(rrun, i, b, p, q, s.disk.results[b].needs);
  }
}
