// The execution authorization worker: a ready bundle is claimed, turned into a
// package by an atomic rename, verified, and only then given its processed receipt.
// The privileged consumer looks at a package only when that receipt exists.

module AuthorizationWorker {
  import opened Common
  import opened Runs

  // A ready directory is either named by the identity hash of an order or by
  // something else, such as a staging directory left in the ready root.
  datatype ReadyName = Identity(order: Binding) | Stray(name: string)

  // A package renamed into place by the given call; Gutted once a removal has begun
  // and failed half-way.
  datatype Package = Whole(call: nat) | Gutted(call: nat)

  datatype Receipt = Receipt(order: Binding, call: nat)

  datatype Snapshot = Snapshot(
    claims: set<Binding>,                 // dispatch claims, created exclusively
    packages: map<Binding, Package>,      // handoff root, named by the order
    processed: map<ReadyName, Receipt>,
    failures: map<ReadyName, bool>)       // dispatch_claim_consumed, as recorded

  const EMPTY := Snapshot({}, map[], map[], map[])

  datatype Status = AlreadyTerminal | Authorized | FailedClosed

  // How materializing ends: with a package, with an error the caller turns into a
  // failure receipt, or with control lost.
  datatype Making = Made | Refused | Escaped

  // Where the process dies in one call, if it does.
  datatype Death = Never | AfterClaim | WhileWriting | AfterRename | BeforeReceipt | AfterReceipt

  // How far removing an unpublished package gets.
  datatype Removal = Removed | Begun | NotBegun

  // Everything outside the worker that one call depends on.
  datatype Faults = Faults(
    death: Death, unverified: bool, claimUnsaved: bool, payloadsUnreadable: bool,
    unwritten: bool, writeEscapes: bool, uncleaned: bool, rootUnsynced: bool,
    packageRefused: bool, receiptUnsynced: bool, removal: Removal, failureUnsaved: bool)
  {
    // The package is renamed into place and stays there.
    predicate Packages() {
      && (death.Never? || death.BeforeReceipt? || death.AfterReceipt?)
      && !unverified && !claimUnsaved && !payloadsUnreadable && !unwritten && !rootUnsynced
    }

    // The receipt is renamed into place too.
    predicate Serves() {
      Packages() && !death.BeforeReceipt? && !packageRefused
    }

    // The process dies right after the package is renamed into place.
    predicate Orphans() {
      death.AfterRename? && !unverified && !claimUnsaved && !payloadsUnreadable && !unwritten
    }

    predicate Succeeds() {
      Serves() && death.Never? && !receiptUnsynced
    }
  }

  ghost predicate Sound(s: Snapshot) {
    && s.packages.Keys <= s.claims
    && (forall n :: n in s.processed ==>
          && s.processed[n].order in s.packages
          && s.packages[s.processed[n].order] == Whole(s.processed[n].call))
    && forall m, n :: m in s.processed && n in s.processed && m != n ==> s.processed[m].order != s.processed[n].order
  }

  // One call of the worker, wherever it ends. A processed receipt is new only for an
  // order claimed by the same call, and old packages are left alone.
  ghost predicate Advances(s: Snapshot, s': Snapshot) {
    && Sound(s) && Sound(s')
    && s.claims <= s'.claims && Extends(s.processed, s'.processed) && Extends(s.failures, s'.failures)
    && (forall n :: n in s'.processed && n !in s.processed ==> s'.processed[n].order !in s.claims)
    && (forall o :: o in s.claims ==> (o in s'.packages <==> o in s.packages))
    && (forall o :: o in s.claims && o in s.packages ==> s'.packages[o] == s.packages[o])
  }

  // ----- All runs

  ghost predicate IsHistory(calls: seq<Snapshot>) {
    IsPath(Advances, calls) && calls[0] == EMPTY
  }

  // Claimed, and no processed receipt names the order: whatever package exists is an orphan.
  ghost predicate Unserved(o: Binding, s: Snapshot) {
    o in s.claims && forall n :: n in s.processed ==> s.processed[n].order != o
  }

  // The consumer's gate for the package of order o.
  predicate GateOpens(o: Binding, s: Snapshot) {
    o in s.packages && Identity(o) in s.processed
  }

  ghost predicate WellNamed(s: Snapshot) {
    forall n :: n in s.processed ==> n == Identity(s.processed[n].order)
  }

  // Once a call has ended without a receipt, none ever follows.
  lemma UnservedForever(calls: seq<Snapshot>, i: nat, j: nat, o: Binding)
    requires IsHistory(calls) && i <= j < |calls| && Unserved(o, calls[i])
    ensures Unserved(o, calls[j])
  {
    KeptAlong(Advances, s => Unserved(o, s), calls, i, j);
  }

  // So, with bundles named by their orders, the gate never opens on an orphan.
  lemma GateStaysShutOnOrphans(calls: seq<Snapshot>, i: nat, j: nat, o: Binding)
    requires IsHistory(calls) && i <= j < |calls| && Unserved(o, calls[i]) && WellNamed(calls[j])
    ensures !GateOpens(o, calls[j])
  {
    UnservedForever(calls, i, j, o);
  }

  // Where it does open, the package is whole and from the call that wrote the receipt.
  lemma GateOpensOnWholePackages(calls: seq<Snapshot>, j: nat, o: Binding)
    requires IsHistory(calls) && j < |calls| && WellNamed(calls[j]) && GateOpens(o, calls[j])
    ensures calls[j].packages[o] == Whole(calls[j].processed[Identity(o)].call)
  {
    if j > 0 { assert StepAt(Advances, calls, j - 1); }
  }

  // Every receipt is filed under the name of its order or under a stray name, as it is
  // while the bundles are the claim worker's and what it left behind.
  ghost predicate NamedOrStray(s: Snapshot) {
    forall n :: n in s.processed ==> n.Stray? || n == Identity(s.processed[n].order)
  }

  ghost predicate ServedAs(n: ReadyName, o: Binding, s: Snapshot) {
    n in s.processed && s.processed[n].order == o
  }

  // An order served under a stray name, such as a staging directory's, has its one receipt
  // there: the consumer's gate for it never opens, in no later call either.
  lemma StrayServedNeverPasses(calls: seq<Snapshot>, i: nat, j: nat, n: ReadyName, o: Binding)
    requires IsHistory(calls) && i <= j < |calls| && n.Stray? && ServedAs(n, o, calls[i]) && NamedOrStray(calls[j])
    ensures ServedAs(n, o, calls[j]) && !GateOpens(o, calls[j])
  {
    KeptAlong(Advances, s => ServedAs(n, o, s), calls, i, j);
    HistorySound(calls, j);
  }

  lemma HistorySound(calls: seq<Snapshot>, j: nat)
    requires IsHistory(calls) && j < |calls|
    ensures Sound(calls[j])
  {
    KeptAlong(Advances, Sound, calls, 0, j);
  }

  ghost predicate SameExcept(order: Binding, a: map<Binding, Package>, b: map<Binding, Package>) {
    forall o :: o != order ==> (o in a <==> o in b) && (o in a ==> a[o] == b[o])
  }

  // ----- The code

  class Worker {
    var readyRoot: map<ReadyName, Binding> // ready directories and the order each one carries
    var claims: set<Binding>
    var packages: map<Binding, Package>
    var temporary: set<Binding>            // .{identity}.tmp directories in the handoff root
    var processed: map<ReadyName, Receipt>
    var failures: map<ReadyName, bool>
    var calls: nat                        // numbers the calls, to tell whose package is whose

    constructor (readyRoot: map<ReadyName, Binding>)
      ensures Valid() && Snap() == EMPTY && this.readyRoot == readyRoot && calls == 0
    {
      this.readyRoot := readyRoot;
      claims, packages, temporary, processed, failures, calls := {}, map[], {}, map[], map[], 0;
    }

    ghost function Snap(): Snapshot
      reads this
    {
      Snapshot(claims, packages, processed, failures)
    }

    ghost predicate Valid()
      reads this
    {
      Sound(Snap()) && temporary <= claims
    }

    ghost predicate Terminal(n: ReadyName)
      reads this
    {
      n in processed || n in failures
    }

    // _materialize_handoff, for an order whose claim this call has just taken.
    method MaterializeHandoff(order: Binding, call: nat, faults: Faults) returns (making: Making)
      requires Valid() && order in claims && order !in packages
      modifies this`packages, this`temporary
      ensures Valid()
      ensures making.Made? ==> packages == old(packages)[order := Whole(call)]
      ensures making.Made? <==> order !in old(temporary) && !faults.death.WhileWriting? && !faults.death.AfterRename?
                                && !faults.unwritten && !faults.rootUnsynced
      ensures !making.Made? ==>
                SameExcept(order, packages, old(packages)) && (order in packages ==> packages[order].call == call)
      ensures order !in old(temporary) && !faults.unwritten && faults.death.AfterRename? ==>
                making.Escaped? && packages == old(packages)[order := Whole(call)]
      // a raised error leaves no package, unless its removal fails
      ensures making.Refused? && faults.removal.Removed? ==> order !in packages
    {
      if order in temporary { return Refused; }
      temporary := temporary + {order};
      if faults.death.WhileWriting? { return Escaped; }
      if faults.unwritten {
        if !faults.uncleaned { temporary := temporary - {order}; }
        return if faults.writeEscapes then Escaped else Refused;
      }
      temporary := temporary - {order};
      packages := packages[order := Whole(call)];
      if faults.death.AfterRename? { return Escaped; }
      if faults.rootUnsynced {
        RemoveHandoff(order, faults.removal);
        return Refused;
      }
      return Made;
    }

    // Remove a package that was never published, as far as that succeeds: this is
    // _remove_unpublished_handoff and the cleanup inside _materialize_handoff.
    method RemoveHandoff(order: Binding, removal: Removal)
      requires order in packages
      modifies this`packages
      ensures packages == match removal {
                            case Removed => old(packages) - {order}
                            case Begun => old(packages)[order := Gutted(old(packages)[order].call)]
                            case NotBegun => old(packages)
                          }
    {
      match removal
      case Removed => packages := packages - {order};
      case Begun => packages := packages[order := Gutted(packages[order].call)];
      case NotBegun =>
    }

    // The except branch of authorize_ready_once. A package whose receipt is already in
    // place is kept, although the call ends as failed. Writing the failure receipt may raise.
    method FailClosed(n: ReadyName, claimConsumed: bool, handoff: Option<Binding>, call: nat, faults: Faults)
      returns (outcome: Outcome)
      requires Valid() && n !in failures
      requires handoff.Some? ==> handoff.value in packages && packages[handoff.value] == Whole(call)
      requires handoff.Some? && n !in processed ==> forall m :: m in processed ==> processed[m].order != handoff.value
      modifies this`packages, this`failures
      ensures Valid() && (outcome.Finished? ==> Terminal(n)) && (outcome.Finished? <==> !faults.failureUnsaved)
      ensures failures == if faults.failureUnsaved then old(failures) else old(failures)[n := claimConsumed]
      ensures if handoff.Some? && n !in processed
              then SameExcept(handoff.value, packages, old(packages))
                   && (faults.removal.Removed? ==> handoff.value !in packages)
              else packages == old(packages)
    {
      if handoff.Some? && n !in processed {
        RemoveHandoff(handoff.value, faults.removal);
      }
      if faults.failureUnsaved { return Interrupted; }
      failures := failures[n := claimConsumed];
      return Finished;
    }

    // authorize_ready_once
    method AuthorizeReadyOnce(n: ReadyName, faults: Faults) returns (outcome: Outcome, status: Status)
      requires Valid() && n in readyRoot
      modifies this`claims, this`packages, this`temporary, this`processed, this`failures, this`calls
      ensures Valid() && Advances(old(Snap()), Snap())
      // a call that is not cut off ends with a receipt
      ensures outcome.Finished? ==> Terminal(n)
      ensures old(Terminal(n)) ==> outcome.Finished? && status.AlreadyTerminal? && Snap() == old(Snap())
      // the processed receipt is written exactly if this very call claimed the order, made
      // the package and got as far as renaming the receipt; the package is then whole
      ensures processed == if old(Fresh(n)) && faults.Serves()
                           then old(processed)[n := Receipt(readyRoot[n], old(calls))]
                           else old(processed)
      ensures old(Fresh(n)) && faults.Serves() ==>
                readyRoot[n] in packages && packages[readyRoot[n]] == Whole(old(calls))
      ensures outcome.Finished? && status.Authorized? <==> old(Fresh(n)) && faults.Succeeds()
      // the one way to report failure with the gate open: the receipt stands, its sync failed
      ensures old(Fresh(n)) ==> (n in processed && n in failures <==>
                faults.Serves() && faults.death.Never? && faults.receiptUnsynced && !faults.failureUnsaved)
      // death right after the rename leaves the order claimed and its package whole
      ensures old(Fresh(n)) && faults.Orphans() ==>
                claims == old(claims) + {readyRoot[n]} && packages == old(packages)[readyRoot[n] := Whole(old(calls))]
      ensures calls == old(calls) + 1
      ensures faults.Succeeds() && !faults.failureUnsaved ==> outcome.Finished?
      ensures forall m :: m != n ==> (Terminal(m) <==> old(Terminal(m)))
      ensures claims <= old(claims) + {readyRoot[n]}
    {
      var call := calls;
      calls := calls + 1;
      status := FailedClosed;
      if n in processed || n in failures { return Finished, AlreadyTerminal; }
      var order := readyRoot[n];
      if faults.unverified || order in claims {
        outcome := FailClosed(n, false, None, call, faults);
        return;
      }
      claims := claims + {order};
      outcome, status := Proceed(n, order, call, faults);
    }

    // From the claim on.
    method Proceed(n: ReadyName, order: Binding, call: nat, faults: Faults) returns (outcome: Outcome, status: Status)
      requires Valid() && !Terminal(n) && order in claims && order !in packages && order !in temporary
      requires !faults.unverified
      modifies this`packages, this`temporary, this`processed, this`failures
      ensures Valid() && Extends(old(failures), failures) && SameExcept(order, packages, old(packages))
      ensures outcome.Finished? ==> Terminal(n)
      ensures processed == if faults.Serves() then old(processed)[n := Receipt(order, call)] else old(processed)
      ensures faults.Serves() ==> order in packages && packages[order] == Whole(call)
      ensures outcome.Finished? && status.Authorized? <==> faults.Succeeds()
      ensures n in processed && n in failures <==>
                faults.Serves() && faults.death.Never? && faults.receiptUnsynced && !faults.failureUnsaved
      ensures faults.Orphans() ==> packages == old(packages)[order := Whole(call)]
      ensures forall m :: m != n ==> (Terminal(m) <==> old(Terminal(m)))
    {
      status := FailedClosed;
      if faults.death.AfterClaim? { return Interrupted, status; }
      if faults.claimUnsaved || faults.payloadsUnreadable {
        outcome := FailClosed(n, !faults.claimUnsaved, None, call, faults);
        return;
      }
      var making := MaterializeHandoff(order, call, faults);
      if making.Escaped? { return Interrupted, status; }
      if making.Refused? {
        outcome := FailClosed(n, true, None, call, faults);
        return;
      }
      outcome, status := Publish(n, order, call, faults);
    }

    // A bundle that has no receipt, of an order nobody has claimed.
    ghost predicate Fresh(n: ReadyName)
      reads this
    {
      !Terminal(n) && n in readyRoot && readyRoot[n] !in claims
    }

    // From the package to the processed receipt: write it aside, verify the package
    // against it, and rename it into place.
    method Publish(n: ReadyName, order: Binding, call: nat, faults: Faults) returns (outcome: Outcome, status: Status)
      requires Valid() && n !in processed && n !in failures && order in packages && packages[order] == Whole(call)
      requires forall m :: m in processed ==> processed[m].order != order
      modifies this`packages, this`processed, this`failures
      ensures Valid() && (outcome.Finished? ==> Terminal(n))
      ensures SameExcept(order, packages, old(packages))
      ensures failures == old(failures) || failures == old(failures)[n := true]
      ensures var served := !faults.death.BeforeReceipt? && !faults.packageRefused;
              && (processed == if served then old(processed)[n := Receipt(order, call)] else old(processed))
              && (served ==> packages == old(packages))
              && (served ==> (n in failures <==>
                    !faults.death.AfterReceipt? && faults.receiptUnsynced && !faults.failureUnsaved))
              && (outcome.Finished? && status.Authorized? <==>
                    served && !faults.death.AfterReceipt? && !faults.receiptUnsynced)
    {
      status := FailedClosed;
      if faults.death.BeforeReceipt? { return Interrupted, status; }
      if faults.packageRefused {
        outcome := FailClosed(n, true, Some(order), call, faults);
        return;
      }
      processed := processed[n := Receipt(order, call)];
      if faults.death.AfterReceipt? { return Interrupted, status; }
      if faults.receiptUnsynced {
        outcome := FailClosed(n, true, Some(order), call, faults);
        return;
      }
      return Finished, Authorized;
    }

    // authorize_pending_once: an uninterrupted pass leaves every bundle terminal.
    method AuthorizePendingOnce(listing: seq<ReadyName>, faults: map<ReadyName, Faults>)
      returns (outcome: Outcome, statuses: seq<Status>)
      requires Valid() && forall n :: n in listing <==> n in readyRoot
      requires faults.Keys == readyRoot.Keys
      modifies this`claims, this`packages, this`temporary, this`processed, this`failures, this`calls
      ensures Valid() && Advances(old(Snap()), Snap())
      ensures outcome.Finished? ==> forall n :: n in readyRoot ==> Terminal(n)
      // bundles named as the claim worker names them keep every receipt well named, and if
      // nothing goes wrong every one of them that is fresh gets its receipt
      ensures Named() && old(WellNamed(Snap())) ==> WellNamed(Snap())
      ensures Named() && (forall n :: n in readyRoot ==> faults[n].Succeeds()) && outcome.Finished? ==>
                forall n :: old(Fresh(n)) ==> n in processed
      ensures (forall n :: n in readyRoot ==> faults[n].Succeeds() && !faults[n].failureUnsaved) ==> outcome.Finished?
    {
      statuses := [];
      ghost var calm := Named() && forall n :: n in readyRoot ==> faults[n].Succeeds();
      AdvancesSelf(Snap());
      for i := 0 to |listing|
        invariant Valid() && Advances(old(Snap()), Snap())
        invariant forall k :: 0 <= k < i ==> Terminal(listing[k])
        invariant Named() && old(WellNamed(Snap())) ==> WellNamed(Snap())
        invariant calm ==> forall n :: old(Fresh(n)) ==> Fresh(n) || n in processed
        invariant calm ==> forall k :: 0 <= k < i && old(Fresh(listing[k])) ==> listing[k] in processed
      {
        ghost var before := Snap();
        var status;
        outcome, status := AuthorizeReadyOnce(listing[i], faults[listing[i]]);
        AdvancesTransitive(old(Snap()), before, Snap());
        if outcome.Interrupted? { return; }
        statuses := statuses + [status];
      }
      outcome := Finished;
    }

    ghost predicate Named()
      reads this
    {
      forall n :: n in readyRoot ==> n == Identity(readyRoot[n])
    }
  }

  lemma AdvancesSelf(s: Snapshot)
    requires Sound(s)
    ensures Advances(s, s)
  {}

  lemma AdvancesTransitive(a: Snapshot, b: Snapshot, c: Snapshot)
    requires Advances(a, b) && Advances(b, c)
    ensures Advances(a, c)
  {}

  const NO_FAULTS := Faults(Never, false, false, false, false, false, false, false, false, false, Removed, false)

  // A bundle under another order's name opens that order's gate on an orphan: a crash leaves
  // the package of o behind, then the bundle that bears its name but carries p is served.
  method OpenGateOnOrphan(o: Binding, p: Binding) returns (w: Worker)
    requires o != p
    ensures fresh(w) && w.Valid() && Unserved(o, w.Snap()) && GateOpens(o, w.Snap())
  {
    w := new Worker(map[Stray("staging") := o, Identity(o) := p]);
    var _, _ := w.AuthorizeReadyOnce(Stray("staging"), NO_FAULTS.(death := AfterRename));
    assert w.processed == map[] && !w.Terminal(Identity(o));
    var _, _ := w.AuthorizeReadyOnce(Identity(o), NO_FAULTS);
    assert w.processed == map[Identity(o) := Receipt(p, 1)];
  }
}
