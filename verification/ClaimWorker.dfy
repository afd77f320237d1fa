// The transport claim worker: each inbox entry is claimed once, materialised as a
// ready bundle at most once, and closed by a receipt. Control may be lost between
// any two durable writes; nothing is ever undone.

module ClaimWorker {
  import opened Common
  import opened Runs

  type Name = string

  // What one pass makes of an inbox file: the content may be unreadable or fail
  // verification, depending on the key and on the time of the pass.
  datatype Reading =
    | Undecodable     // the exception escapes the pass
    | Refused
    | KeyIdMismatch
    | Genuine

  datatype FailureStatus =
    | UnclaimableEnvelope | MaterializationFailed | ProcessedReceiptFailed

  datatype Failure = Failure(status: FailureStatus, claimConsumed: bool)

  datatype Result = ClaimedReady | RetryLater | Failed(status: FailureStatus)

  // What goes wrong while one entry is processed: where control is lost, if it is, and
  // which of the durable writes fail.
  datatype Loss = NoLoss | BeforeClaim | AfterClaim | AfterBundle

  datatype Faults = Faults(loss: Loss, bundleFails: bool, receiptFails: bool, failureFails: bool) {
    predicate None() {
      loss.NoLoss? && !bundleFails && !receiptFails && !failureFails
    }

    predicate Bundles() {
      !loss.BeforeClaim? && !loss.AfterClaim? && !bundleFails
    }

    predicate Completes() {
      loss.NoLoss? && !bundleFails && !receiptFails
    }
  }

  // The four directories the worker writes.
  datatype Snapshot = Snapshot(claims: set<Binding>, ready: map<Binding, Name>,
                               processed: set<Name>, failures: map<Name, Failure>)

  // What a pass never takes back, and what it never adds: an order that was claimed
  // before and has no bundle never gets one.
  ghost predicate Advances(s: Snapshot, s': Snapshot) {
    && s.claims <= s'.claims && Extends(s.ready, s'.ready)
    && s.processed <= s'.processed && Extends(s.failures, s'.failures)
    && s'.ready.Keys <= s'.claims
    && (forall b :: b in s.claims && b in s'.ready ==> b in s.ready)
  }

  lemma AdvancesCompose(s: Snapshot, s': Snapshot, s'': Snapshot)
    requires Advances(s, s') && Advances(s', s'')
    ensures Advances(s, s'')
  {
  }

  // Any number of passes, each interrupted anywhere or not at all.
  ghost predicate IsHistory(passes: seq<Snapshot>) {
    IsPath(Advances, passes) && passes[0] == Snapshot({}, map[], {}, map[])
  }

  ghost predicate Orphaned(b: Binding, s: Snapshot) {
    b in s.claims && b !in s.ready
  }

  // A claim whose bundle was lost to a crash stays without one for ever.
  lemma OrphanedClaimsStayOrphaned(passes: seq<Snapshot>, i: nat, j: nat, b: Binding)
    requires IsHistory(passes) && i <= j < |passes| && Orphaned(b, passes[i])
    ensures Orphaned(b, passes[j])
  {
    KeptAlong(Advances, s => Orphaned(b, s), passes, i, j);
  }

  ghost predicate HasBundle(b: Binding, n: Name, s: Snapshot) {
    b in s.ready && s.ready[b] == n && b in s.claims
  }

  // Every bundle implies its claim, and is the one bundle its claim ever yields.
  lemma BundlesAreFinal(passes: seq<Snapshot>, i: nat, j: nat, b: Binding)
    requires IsHistory(passes) && i <= j < |passes| && b in passes[i].ready
    ensures b in passes[i].claims
    ensures b in passes[j].ready && passes[j].ready[b] == passes[i].ready[b]
  {
    if i > 0 { assert StepAt(Advances, passes, i - 1); }
    KeptAlong(Advances, s => HasBundle(b, passes[i].ready[b], s), passes, i, j);
  }

  // No name is listed twice.
  ghost predicate NoRepeats(names: seq<Name>) {
    names == [] || (names[|names| - 1] !in names[..|names| - 1] && NoRepeats(names[..|names| - 1]))
  }

  lemma {:induction false} Once(names: seq<Name>, i: nat)
    requires NoRepeats(names) && i < |names|
    ensures names[i] !in names[..i] && names[i] !in names[i + 1..]
  {
    var front := names[..|names| - 1];
    if i < |front| {
      Once(front, i);
      assert front[..i] == names[..i] && names[i + 1..] == front[i + 1..] + [names[|front|]];
      assert front[i] in front;
    }
  }

  class Worker {
    var inbox: map<Name, Binding>       // entries and the order each one carries; read only
    var claims: set<Binding>            // claim files, created exclusively, one per order
    var ready: map<Binding, Name>       // ready bundles, named by the claim id, and their entry
    var processed: set<Name>
    var failures: map<Name, Failure>
    ghost var bundled: multiset<Binding> // renames into the ready directory, ever

    ghost predicate Valid()
      reads this
    {
      && ready.Keys <= claims
      && (forall b :: bundled[b] == if b in ready then 1 else 0)
      && (forall b :: b in ready ==> ready[b] in inbox && inbox[ready[b]] == b)
      && processed <= inbox.Keys && failures.Keys <= inbox.Keys
      && (forall n :: n in processed ==> inbox[n] in ready && ready[inbox[n]] == n)
      && (forall n :: n in failures && failures[n].claimConsumed ==> inbox[n] in claims)
      && (forall n :: n in failures && failures[n].status.ProcessedReceiptFailed? ==> inbox[n] in ready)
    }

    ghost function Snap(): Snapshot
      reads this
    {
      Snapshot(claims, ready, processed, failures)
    }

    twostate predicate Untouched()
      reads this
    {
      claims == old(claims) && ready == old(ready) && processed == old(processed) && failures == old(failures)
    }

    predicate IsPending(n: Name)
      reads this
    {
      n in inbox && n !in processed && n !in failures
    }

    // _pending
    method Pending(listing: seq<Name>) returns (pending: seq<Name>)
      requires NoRepeats(listing) && forall n :: n in listing ==> n in inbox
      ensures NoRepeats(pending) && forall n :: n in pending <==> n in listing && IsPending(n)
    {
      pending := [];
      for i := 0 to |listing|
        invariant NoRepeats(pending) && forall n :: n in pending <==> n in listing[..i] && IsPending(n)
      {
        Once(listing, i);
        assert listing[..i + 1] == listing[..i] + [listing[i]];
        if listing[i] in processed || listing[i] in failures { continue; }
        assert (pending + [listing[i]])[..|pending|] == pending;
        pending := pending + [listing[i]];
      }
      assert listing[..|listing|] == listing;
    }

    // _terminal_failure; its own write may raise.
    method TerminalFailure(n: Name, status: FailureStatus, claimConsumed: bool, faults: Faults)
      returns (outcome: Outcome)
      requires Valid() && n in inbox
      requires claimConsumed ==> inbox[n] in claims
      requires status.ProcessedReceiptFailed? ==> inbox[n] in ready
      modifies this`failures
      ensures Valid()
      ensures outcome.Finished? <==> n in failures
      ensures failures == if n in old(failures) || faults.failureFails then old(failures)
                          else old(failures)[n := Failure(status, claimConsumed)]
    {
      if n in failures { return Finished; }
      if faults.failureFails { return Interrupted; }
      failures := failures[n := Failure(status, claimConsumed)];
      return Finished;
    }

    // The claim and the bundle of one entry. Claiming is an exclusive create.
    method ClaimEntry(n: Name, reading: Reading, faults: Faults) returns (outcome: Outcome, result: Result)
      requires Valid() && IsPending(n)
      modifies this`claims, this`ready, this`processed, this`failures, this`bundled
      ensures Valid() && Advances(old(Snap()), Snap())
      ensures outcome.Finished? ==> !reading.Undecodable? && (IsPending(n) <==> reading.KeyIdMismatch?)
      ensures !reading.Undecodable? && faults.None() ==> outcome.Finished?
      ensures outcome.Finished? ==> (result.ClaimedReady? <==> n in processed)
      ensures reading.KeyIdMismatch? ==> Snap() == old(Snap()) && outcome.Finished? && result.RetryLater?
      // the order is claimed, bundled and closed by this call exactly as far as it gets
      ensures claims == if reading.Genuine? && !faults.loss.BeforeClaim? then old(claims) + {inbox[n]} else old(claims)
      ensures ready == if Wins(n, reading, old(claims)) && faults.Bundles() then old(ready)[inbox[n] := n]
                       else old(ready)
      ensures processed == if Wins(n, reading, old(claims)) && faults.Completes() then old(processed) + {n}
                           else old(processed)
      ensures forall m :: m in failures && m !in old(failures) ==> m == n
      ensures n in failures ==> failures[n].claimConsumed == reading.Genuine?
    {
      result := RetryLater;
      match reading
      case Undecodable => return Interrupted, result;
      case KeyIdMismatch => return Finished, RetryLater;
      case Refused =>
        outcome := TerminalFailure(n, UnclaimableEnvelope, false, faults);
        return outcome, Failed(UnclaimableEnvelope);
      case Genuine =>
      var order := inbox[n];
      if faults.loss.BeforeClaim? { return Interrupted, result; }
      if order in claims {
        outcome := TerminalFailure(n, UnclaimableEnvelope, true, faults);
        return outcome, Failed(UnclaimableEnvelope);
      }
      claims := claims + {order};
      if faults.loss.AfterClaim? { return Interrupted, result; }
      outcome, result := Materialize(n, faults);
    }

    // An entry takes its order's claim if it is genuine and comes first.
    predicate Wins(n: Name, reading: Reading, claimed: set<Binding>)
      requires n in inbox
      reads this`inbox
    {
      reading.Genuine? && inbox[n] !in claimed
    }

    // From a claim that this call has just taken: bundle, then processed receipt.
    method Materialize(n: Name, faults: Faults) returns (outcome: Outcome, result: Result)
      requires Valid() && IsPending(n) && inbox[n] in claims && inbox[n] !in ready
      modifies this`ready, this`processed, this`failures, this`bundled
      ensures Valid()
      ensures ready == if faults.bundleFails then old(ready) else old(ready)[inbox[n] := n]
      ensures processed == if faults.bundleFails || faults.receiptFails || faults.loss.AfterBundle? then old(processed)
                           else old(processed) + {n}
      ensures Extends(old(failures), failures) && forall m :: m in failures && m !in old(failures) ==> m == n
      ensures n in failures ==> failures[n].claimConsumed
      ensures outcome.Finished? ==> !IsPending(n) && (result.ClaimedReady? <==> n in processed)
      ensures !faults.loss.AfterBundle? && !faults.failureFails ==> outcome.Finished?
    {
      result := RetryLater;
      var order := inbox[n];
      if faults.bundleFails {
        outcome := TerminalFailure(n, MaterializationFailed, true, faults);
        return outcome, Failed(MaterializationFailed);
      }
      // the staged directory is complete; the rename makes it the bundle
      ready := ready[order := n];
      bundled := bundled + multiset{order};
      if faults.loss.AfterBundle? { return Interrupted, result; }
      outcome, result := WriteProcessed(n, faults);
    }

    method WriteProcessed(n: Name, faults: Faults) returns (outcome: Outcome, result: Result)
      requires Valid() && IsPending(n) && inbox[n] in ready && ready[inbox[n]] == n
      modifies this`processed, this`failures
      ensures Valid()
      ensures processed == if faults.receiptFails then old(processed) else old(processed) + {n}
      ensures Extends(old(failures), failures) && forall m :: m in failures && m !in old(failures) ==> m == n
      ensures n in failures ==> failures[n].claimConsumed
      ensures outcome.Finished? ==> !IsPending(n) && (result.ClaimedReady? <==> n in processed)
      ensures !faults.failureFails ==> outcome.Finished?
    {
      if faults.receiptFails {
        outcome := TerminalFailure(n, ProcessedReceiptFailed, true, faults);
        return outcome, Failed(ProcessedReceiptFailed);
      }
      processed := processed + {n};
      return Finished, ClaimedReady;
    }

    // What claim_pending_once relies on from one entry to the next.
    method ClaimNext(n: Name, reading: Reading, faults: Faults) returns (outcome: Outcome, result: Result)
      requires Valid() && IsPending(n)
      modifies this`claims, this`ready, this`processed, this`failures, this`bundled
      ensures Valid() && Advances(old(Snap()), Snap())
      ensures forall m :: m != n ==> (IsPending(m) <==> old(IsPending(m)))
      ensures outcome.Finished? ==> !reading.Undecodable? && (IsPending(n) <==> reading.KeyIdMismatch?)
      ensures faults.None() && !reading.Undecodable? ==> outcome.Finished? && (reading.Genuine? ==> inbox[n] in claims)
      ensures faults.None() ==> forall b :: b in claims && b !in old(claims) ==> b in ready
      ensures reading.KeyIdMismatch? ==> Untouched() && outcome.Finished?
    {
      outcome, result := ClaimEntry(n, reading, faults);
    }

    ghost predicate AllPending(names: seq<Name>)
      reads this
    {
      forall n :: n in names ==> IsPending(n)
    }

    // An entry that has had its turn is pending only if it is under another key.
    ghost predicate HadTurns(names: seq<Name>, readings: map<Name, Reading>)
      requires readings.Keys == inbox.Keys
      reads this
    {
      forall n :: n in names && n in inbox ==>
        !readings[n].Undecodable? && (IsPending(n) <==> readings[n].KeyIdMismatch?)
    }

    // The loop over the pending entries.
    method ClaimAll(pending: seq<Name>, readings: map<Name, Reading>, faults: map<Name, Faults>)
      returns (outcome: Outcome, results: seq<Result>)
      requires Valid() && NoRepeats(pending) && AllPending(pending)
      requires readings.Keys == faults.Keys == inbox.Keys
      modifies this`claims, this`ready, this`processed, this`failures, this`bundled
      ensures Valid() && Advances(old(Snap()), Snap())
      ensures forall m :: m !in pending ==> (IsPending(m) <==> old(IsPending(m)))
      ensures outcome.Finished? ==> HadTurns(pending, readings)
      ensures Calm(pending, readings, faults) ==> outcome.Finished? && Bundled(pending, readings, old(claims))
      ensures Foreign(pending, readings) ==> outcome.Finished? && Untouched()
    {
      results := [];
      ghost var start := Snap();
      assert pending[..0] == [] && pending[0..] == pending;
      for i := 0 to |pending|
        invariant Valid() && Advances(start, Snap()) && |results| == i
        invariant forall m :: m !in pending ==> (IsPending(m) <==> old(IsPending(m)))
        invariant AllPending(pending[i..]) && HadTurns(pending[..i], readings)
        invariant Calm(pending, readings, faults) ==> Bundled(pending[..i], readings, start.claims)
        invariant Foreign(pending, readings) ==> Untouched()
      {
        var result;
        outcome, result := ClaimTurn(start, pending, i, readings, faults);
        if outcome.Interrupted? { return; }
        results := results + [result];
      }
      assert pending[..|pending|] == pending;
      outcome := Finished;
    }

    // One turn of the loop.
    method ClaimTurn(ghost start: Snapshot, pending: seq<Name>, i: nat, readings: map<Name, Reading>,
                     faults: map<Name, Faults>)
      returns (outcome: Outcome, result: Result)
      requires Valid() && NoRepeats(pending) && i < |pending| && readings.Keys == faults.Keys == inbox.Keys
      requires Advances(start, Snap()) && AllPending(pending[i..]) && HadTurns(pending[..i], readings)
      requires Calm(pending, readings, faults) ==> Bundled(pending[..i], readings, start.claims)
      modifies this`claims, this`ready, this`processed, this`failures, this`bundled
      ensures Valid() && Advances(start, Snap())
      ensures forall m :: m !in pending ==> (IsPending(m) <==> old(IsPending(m)))
      ensures outcome.Finished? ==> AllPending(pending[i + 1..]) && HadTurns(pending[..i + 1], readings)
      ensures Calm(pending, readings, faults) ==>
                outcome.Finished? && Bundled(pending[..i + 1], readings, start.claims)
      ensures Foreign(pending, readings) ==> outcome.Finished? && Untouched()
    {
      var n := pending[i];
      Once(pending, i);
      assert pending[..i + 1] == pending[..i] + [n] && pending[i..] == [n] + pending[i + 1..];
      assert n in pending[i..] && IsPending(n);
      ghost var before := Snap();
      outcome, result := ClaimNext(n, readings[n], faults[n]);
      AdvancesCompose(start, before, Snap());
    }

    // Nothing goes wrong with any of the entries.
    ghost predicate Calm(names: seq<Name>, readings: map<Name, Reading>, faults: map<Name, Faults>)
      requires readings.Keys == faults.Keys
    {
      forall n :: n in names && n in readings ==> !readings[n].Undecodable? && faults[n].None()
    }

    ghost predicate Foreign(names: seq<Name>, readings: map<Name, Reading>) {
      forall n :: n in names && n in readings ==> readings[n].KeyIdMismatch?
    }

    // Every genuine entry's order is claimed, and bundled unless it was claimed before.
    ghost predicate Bundled(names: seq<Name>, readings: map<Name, Reading>, claimed: set<Binding>)
      requires readings.Keys == inbox.Keys
      reads this
    {
      && (forall n :: n in names && n in inbox && readings[n].Genuine? ==> inbox[n] in claims)
      && (forall b :: b in claims && b !in claimed ==> b in ready)
    }

    // claim_pending_once
    method ClaimPendingOnce(listing: seq<Name>, readings: map<Name, Reading>, faults: map<Name, Faults>)
      returns (outcome: Outcome, results: seq<Result>)
      requires Valid() && NoRepeats(listing) && forall n :: n in listing <==> n in inbox
      requires readings.Keys == faults.Keys == inbox.Keys
      modifies this`claims, this`ready, this`processed, this`failures, this`bundled
      ensures Valid() && Advances(old(Snap()), Snap())
      // an uninterrupted pass leaves exactly the entries under another key pending
      ensures outcome.Finished? ==> forall n :: IsPending(n) <==> old(IsPending(n)) && readings[n].KeyIdMismatch?
      ensures outcome.Finished? ==> forall n :: old(IsPending(n)) ==> !readings[n].Undecodable?
      // and it bundles every order that a genuine entry brings for the first time
      ensures (forall n :: old(IsPending(n)) ==> !readings[n].Undecodable? && faults[n].None()) ==>
                outcome.Finished?
                && forall n :: old(IsPending(n)) && Wins(n, readings[n], old(claims)) ==> inbox[n] in ready
      // a pass that finds nothing else pending changes nothing
      ensures (forall n :: old(IsPending(n)) ==> readings[n].KeyIdMismatch?) ==> outcome.Finished? && Untouched()
    {
      var pending := Pending(listing);
      outcome, results := ClaimAll(pending, readings, faults);
    }

    // After an uninterrupted pass a second one, under the same key, changes nothing.
    method PassTwice(listing: seq<Name>, readings: map<Name, Reading>, faults: map<Name, Faults>)
      returns (first: Outcome, ghost between: Snapshot)
      requires Valid() && NoRepeats(listing) && forall n :: n in listing <==> n in inbox
      requires readings.Keys == faults.Keys == inbox.Keys
      modifies this`claims, this`ready, this`processed, this`failures, this`bundled
      ensures Valid()
      ensures first.Finished? ==> Snap() == between
    {
      var results;
      first, results := ClaimPendingOnce(listing, readings, faults);
      between := Snap();
      if first.Finished? {
        var second;
        second, results := ClaimPendingOnce(listing, readings, faults);
      }
    }

    // New entries arrive between passes; the streaming receiver never changes one.
    method Arrive(n: Name, order: Binding)
      requires Valid() && n !in inbox
      modifies this`inbox
      ensures Valid() && inbox == old(inbox)[n := order]
    {
      inbox := inbox[n := order];
    }
  }
}
