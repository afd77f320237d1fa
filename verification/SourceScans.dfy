// The loops with which the source reads its receipt directories. A directory
// listing is a sequence of orders: every receipt file is named by a hash of the
// intent and the request it carries.

module SourceScans {
  import opened Common
  import opened SourceProtocol

  datatype PublicationState = Ready | WaitingForResult | AttemptConsumedState

  // ----- Trimming, as str.strip does it

  predicate IsSpace(c: char) {
    0x09 <= c as int <= 0x0D || 0x1C <= c as int <= 0x20 || c as int == 0x85 || c as int == 0xA0
  }

  function StripLeft(s: string): (r: string)
    ensures r != "" ==> !IsSpace(r[0])
  {
    if s != "" && IsSpace(s[0]) then StripLeft(s[1..]) else s
  }

  function StripRight(s: string): (r: string)
    ensures r <= s
    ensures r != "" ==> !IsSpace(r[|r| - 1])
  {
    if s != "" && IsSpace(s[|s| - 1]) then StripRight(s[..|s| - 1]) else s
  }

  function Strip(s: string): string {
    StripRight(StripLeft(s))
  }

  predicate Trimmed(s: string) {
    s == "" || (!IsSpace(s[0]) && !IsSpace(s[|s| - 1]))
  }

  // Stripping changes nothing exactly when there is nothing to strip.
  lemma StripFixes(s: string)
    ensures Strip(s) == s <==> Trimmed(s)
    ensures Trimmed(Strip(s))
  {
    var l := StripLeft(s);
    var r := StripRight(l);
    if r != "" { assert r[0] == l[0]; }
    if Trimmed(s) { assert StripLeft(s) == s; }
  }

  function TrimBinding(b: Binding): Binding {
    Binding(Strip(b.intent), Strip(b.request))
  }

  predicate Named(b: Binding) {
    b.intent != "" && b.request != ""
  }

  predicate TrimmedBinding(b: Binding) {
    Trimmed(b.intent) && Trimmed(b.request)
  }

  // ----- Which publications look unresolved to each scan

  // To _publication_state, which reads the identifiers as they are.
  predicate Lacking(b: Binding, results: map<Binding, Receipt>) {
    Named(b) && b !in results
  }

  // To _pending_result_binding, which strips them first.
  predicate Pending(b: Binding, results: map<Binding, Receipt>) {
    Named(TrimBinding(b)) && TrimBinding(b) !in results
  }

  predicate Attempted(b: Binding, results: map<Binding, Receipt>) {
    Named(b) && b in results && results[b].consumed
  }

  // _publication_state
  method ScanPublications(files: seq<Binding>, results: map<Binding, Receipt>, continuous: bool)
    returns (state: PublicationState)
    ensures state.AttemptConsumedState? <==> !continuous && exists b :: b in files && Attempted(b, results)
    ensures state.WaitingForResult? <==>
              !state.AttemptConsumedState? && exists b :: b in files && Lacking(b, results)
  {
    var attempted, unresolved := false, false;
    for i := 0 to |files|
      invariant attempted <==> exists k :: 0 <= k < i && Attempted(files[k], results)
      invariant unresolved <==> exists k :: 0 <= k < i && Lacking(files[k], results)
    {
      var b := files[i];
      if !Named(b) { continue; }
      if b !in results {
        unresolved := true;
        continue;
      }
      if results[b].consumed { attempted := true; }
    }
    if attempted && !continuous { return AttemptConsumedState; }
    if unresolved { return WaitingForResult; }
    return Ready;
  }

  // The first element of a listing that satisfies a test.
  ghost predicate FirstIn(files: seq<Binding>, test: Binding -> bool, found: Option<Binding>) {
    match found
    case None => forall k :: 0 <= k < |files| ==> !test(files[k])
    case Some(b) =>
      exists k :: 0 <= k < |files| && files[k] == b && test(b) && forall j :: 0 <= j < k ==> !test(files[j])
  }

  // _pending_result_binding
  method ScanPendingResult(files: seq<Binding>, results: map<Binding, Receipt>) returns (found: Option<Binding>)
    ensures found.None? <==> forall b :: b in files ==> !Pending(b, results)
    ensures found.Some? ==>
              exists b :: FirstIn(files, f => Pending(f, results), Some(b)) && found.value == TrimBinding(b)
  {
    for i := 0 to |files|
      invariant forall k :: 0 <= k < i ==> !Pending(files[k], results)
    {
      var b := TrimBinding(files[i]);
      if !Named(b) { continue; }
      if b !in results {
        assert FirstIn(files, f => Pending(f, results), Some(files[i]));
        return Some(b);
      }
    }
    return None;
  }

  // With trimmed identifiers the two scans agree: the source waits exactly when it
  // knows what to wait for, unless a one-shot session is already over.
  lemma ScansAgree(files: seq<Binding>, results: map<Binding, Receipt>)
    requires forall b :: b in files ==> TrimmedBinding(b)
    ensures forall b :: b in files ==> (Lacking(b, results) <==> Pending(b, results)) && TrimBinding(b) == b
  {
    forall b | b in files ensures TrimBinding(b) == b {
      StripFixes(b.intent);
      StripFixes(b.request);
    }
  }

  // A publication looks the same to both scans, whatever results are on file, exactly
  // when its identifiers need no trimming or one of them is empty.
  lemma ScansAgreeIff(b: Binding)
    ensures (forall results: map<Binding, Receipt> :: Lacking(b, results) <==> Pending(b, results))
       <==> TrimBinding(b) == b || !Named(b)
  {
    if TrimBinding(b) != b && Named(b) {
      var filed := map[b := Receipt("", false, map[], false)];
      assert !Lacking(b, filed) && Lacking(b, map[]);
      assert Pending(b, filed) || !Pending(b, map[]);
    }
    assert StripLeft("") == "" && Strip("") == "";
  }

  // With untrimmed ones they can disagree in both directions.
  lemma UntrimmedScansDisagree()
    ensures Lacking(Binding(" ", "r"), map[]) && !Pending(Binding(" ", "r"), map[])
    ensures var b, done := Binding(" i", "r"), Receipt("rejected", true, map[], false);
            !Lacking(b, map[b := done]) && Pending(b, map[b := done])
  {
    assert StripLeft(" ") == StripLeft("") == "";
    assert Strip(" ") == "";
    assert " i"[1..] == "i";
    assert StripLeft(" i") == StripLeft("i") == "i";
    assert Strip(" i") == "i" && Strip("r") == "r";
    assert TrimBinding(Binding(" i", "r")) == Binding("i", "r");
  }

  // How a start goes on after its scans: the one-shot session is over; the receipt of the
  // order to wait for is not found under its stripped name, which raises; or the loop opens.
  datatype StartUp = SessionOver | ReceiptMissing | Opens(waiting: bool, awaited: Option<Binding>)

  // main between the scans and the subscription, with any identifiers.
  method ScanAtStart(files: seq<Binding>, results: map<Binding, Receipt>, continuous: bool) returns (start: StartUp)
    ensures start.SessionOver? <==> !continuous && exists b :: b in files && Attempted(b, results)
    ensures start.ReceiptMissing? <==>
              && !start.SessionOver?
              && exists b :: FirstIn(files, f => Pending(f, results), Some(b)) && TrimBinding(b) !in files
    ensures start.Opens? ==> (start.waiting <==> exists b :: b in files && Lacking(b, results))
    ensures start.Opens? && start.awaited.None? ==> forall b :: b in files ==> !Pending(b, results)
    // it waits with nothing to wait for, so that no result ever wakes it, exactly when each
    // publication without a result strips to an order with one, or to no order
    ensures start.Opens? ==>
              (start.waiting && start.awaited.None?
               <==> (exists b :: b in files && Lacking(b, results))
                    && forall b :: b in files ==> TrimBinding(b) in results || !Named(TrimBinding(b)))
    // a loop that knows what to wait for does wait
    ensures start.Opens? && start.awaited.Some? ==>
              && (exists b :: FirstIn(files, f => Pending(f, results), Some(b))
                              && start.awaited.value == TrimBinding(b))
              && start.awaited.value in files && Lacking(start.awaited.value, results) && start.waiting
  {
    var state := ScanPublications(files, results, continuous);
    if state.AttemptConsumedState? { return SessionOver; }
    var found := ScanPendingResult(files, results);
    if found.None? {
      assert forall b :: b in files ==> !Pending(b, results);
      return Opens(state.WaitingForResult?, None);
    }
    ghost var b :| FirstIn(files, f => Pending(f, results), Some(b)) && found.value == TrimBinding(b);
    if found.value !in files { return ReceiptMissing; }
    FirstIsUnique(files, f => Pending(f, results), b);
    assert Lacking(found.value, results);
    return Opens(state.WaitingForResult?, found);
  }

  lemma FirstIsUnique(files: seq<Binding>, test: Binding -> bool, b: Binding)
    requires FirstIn(files, test, Some(b))
    ensures test(b) && forall c :: FirstIn(files, test, Some(c)) ==> c == b
  {}

  // ----- Settlement scans

  predicate NeedsMarker(b: Binding, results: map<Binding, Receipt>, settlements: set<Binding>) {
    b in results && results[b].needs && b !in settlements && Strip(b.intent) != ""
  }

  // _pending_settlement_intent
  method ScanPendingSettlement(files: seq<Binding>, results: map<Binding, Receipt>, settlements: set<Binding>)
    returns (intent: string)
    requires forall b :: b in files ==> b in results
    ensures intent == "" <==> forall b :: b in files ==> !NeedsMarker(b, results, settlements)
    ensures intent != "" ==>
              exists b :: FirstIn(files, f => NeedsMarker(f, results, settlements), Some(b))
                          && intent == Strip(b.intent)
  {
    for i := 0 to |files|
      invariant forall k :: 0 <= k < i ==> !NeedsMarker(files[k], results, settlements)
    {
      var b := files[i];
      if !results[b].needs { continue; }
      if b in settlements { continue; }
      intent := Strip(b.intent);
      if intent != "" {
        assert FirstIn(files, f => NeedsMarker(f, results, settlements), Some(b));
        return;
      }
    }
    intent := "";
  }

  predicate CarriesIntent(b: Binding, results: map<Binding, Receipt>, intent: string) {
    b in results && b.intent == intent && results[b].needs
  }

  // _settlement_marker_path: settled or not, the first receipt of the intent.
  method MarkerPath(files: seq<Binding>, results: map<Binding, Receipt>, intent: string)
    returns (marker: Option<Binding>)
    requires forall b :: b in files ==> b in results
    ensures FirstIn(files, f => CarriesIntent(f, results, intent), marker)
  {
    for i := 0 to |files|
      invariant forall k :: 0 <= k < i ==> !CarriesIntent(files[k], results, intent)
    {
      var b := files[i];
      if b.intent != intent { continue; }
      if results[b].needs {
        assert FirstIn(files, f => CarriesIntent(f, results, intent), Some(b));
        return Some(b);
      }
    }
    return None;
  }

  // What one settlement attempt reports.
  datatype Settlement = Settled | AlreadySettled | StillWaiting | Unexpected

  // How _settle_until_terminal ends: 0, 2, an exception, or not at all because the
  // process dies while it sleeps.
  datatype Ending = Zero | Two | Raised | Killed

  predicate Terminal(e: Settlement) {
    e.Settled? || e.AlreadySettled?
  }

  // The first report that is not "waiting" decides.
  function Verdict(reports: seq<Settlement>): Option<Settlement> {
    if reports == [] then None
    else if reports[0].StillWaiting? then Verdict(reports[1..])
    else Some(reports[0])
  }

  // found: some recorded result asks for the settlement.
  ghost function EndingOf(reports: seq<Settlement>, found: bool): Ending {
    var v := Verdict(reports);
    if v.None? then Killed
    else if !Terminal(v.value) then Two
    else if !found then Raised
    else Zero
  }

  method SettleUntilTerminal(files: seq<Binding>, results: map<Binding, Receipt>, settlements: set<Binding>,
                             intent: string, reports: seq<Settlement>)
    returns (ending: Ending, settled: set<Binding>, marker: Option<Binding>)
    requires forall b :: b in files ==> b in results
    ensures ending == EndingOf(reports, exists b :: b in files && CarriesIntent(b, results, intent))
    ensures Verdict(reports).Some? && Terminal(Verdict(reports).value) ==>
              FirstIn(files, f => CarriesIntent(f, results, intent), marker)
    ensures ending.Zero? ==> marker.Some? && settled == settlements + {marker.value}
    ensures !ending.Zero? ==> settled == settlements
  {
    settled, marker := settlements, None;
    var i := 0;
    while i < |reports|
      invariant 0 <= i <= |reports| && Verdict(reports) == Verdict(reports[i..])
      invariant settled == settlements && marker == None
    {
      if Terminal(reports[i]) {
        marker := MarkerPath(files, results, intent);
        if marker.None? { return Raised, settled, marker; }
        if marker.value !in settlements { settled := settlements + {marker.value}; }
        assert settled == settlements + {marker.value};
        return Zero, settled, marker;
      }
      if !reports[i].StillWaiting? { return Two, settled, marker; }
      assert reports[i..][1..] == reports[i + 1..];
      i := i + 1;
    }
    return Killed, settled, marker;
  }

  // After a settlement returned 0, the pending scan stops reporting the intent
  // exactly when the marked receipt was the only unsettled one of that intent.
  lemma SettledIntentLeavesTheScan(files: seq<Binding>, results: map<Binding, Receipt>, settlements: set<Binding>,
                                   intent: string, marker: Binding)
    ensures (forall b :: b in files && NeedsMarker(b, results, settlements + {marker}) ==> Strip(b.intent) != intent)
       <==> (forall b :: b in files && NeedsMarker(b, results, settlements) && Strip(b.intent) == intent ==>
               b == marker)
  {
    forall b | b in files
      ensures NeedsMarker(b, results, settlements + {marker}) <==> NeedsMarker(b, results, settlements) && b != marker
    {}
  }

  // Where one request per intent is enforced and identifiers are trimmed, that is
  // always so: settling what the scan reported ends it.
  lemma PendingIntentIsSettled(files: seq<Binding>, results: map<Binding, Receipt>, settlements: set<Binding>,
                               requests: map<string, string>, first: Binding, marker: Option<Binding>)
    requires forall b :: b in files ==> TrimmedBinding(b)
    requires forall b :: b in files ==> b.intent in requests && requests[b.intent] == b.request
    requires FirstIn(files, f => NeedsMarker(f, results, settlements), Some(first))
    requires FirstIn(files, f => CarriesIntent(f, results, Strip(first.intent)), marker)
    ensures marker == Some(first)
    ensures forall b :: b in files && NeedsMarker(b, results, settlements + {first}) ==>
              Strip(b.intent) != Strip(first.intent)
  {
    forall b | b in files ensures Strip(b.intent) == b.intent { StripFixes(b.intent); }
    assert CarriesIntent(first, results, Strip(first.intent));
    SettledIntentLeavesTheScan(files, results, settlements, Strip(first.intent), first);
  }

  // ----- The scans read what the protocol model says they read

  lemma ScansReadTheDisk(d: Disk, files: seq<Binding>, resultFiles: seq<Binding>)
    requires forall b :: b in files <==> b in d.receipts
    requires forall b :: b in resultFiles <==> b in d.results
    requires forall b :: b in d.receipts ==> Named(b) && TrimmedBinding(b)
    requires forall b :: b in d.results ==> Named(b) && TrimmedBinding(b)
    ensures (exists b :: b in files && Attempted(b, d.results)) <==> AttemptConsumed(d)
    ensures (exists b :: b in files && Lacking(b, d.results)) <==> Unresolved(d) != {}
    ensures forall b :: b in files ==> (Pending(b, d.results) <==> b in Unresolved(d)) && TrimBinding(b) == b
    ensures forall b :: b in resultFiles ==>
              (NeedsMarker(b, d.results, d.settlements) <==> b in Unsettled(d)) && Strip(b.intent) == b.intent
  {
    ScansAgree(files, d.results);
    forall b | b in resultFiles ensures Strip(b.intent) == b.intent { StripFixes(b.intent); }
    if Unresolved(d) != {} {
      var b :| b in Unresolved(d);
      assert b in files && Lacking(b, d.results);
    }
    if b :| b in files && Lacking(b, d.results) { assert b in Unresolved(d); }
  }
}
